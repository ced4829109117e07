/**
  The read-only side of the group monitor: the `list` filter, the daily
  report's counts and sums, the tier filter of the monitoring groups and
  the screenshot file name.
 */
module ProspectViews {
  import opened Wrappers
  import opened Text
  import opened Collections
  import opened ProspectStore

  /** The records whose status is `s`, in list order. */
  function WithStatus(ps: seq<Prospect>, s: Status): (r: seq<Prospect>)
    ensures forall p :: p in r <==> p in ps && p.status == s
    ensures IsSubsequence(r, ps)
    ensures forall p :: multiset(r)[p] == if p.status == s then multiset(ps)[p] else 0
  {
    var keep := (p: Prospect) => p.status == s;
    FilterCounts(ps, keep);
    Filter(ps, keep)
  }

  /**
    `list [--status S]`: with a non-empty `S` the records whose stored
    status name is exactly `S`, in list order; with no (or an empty)
    status every record.
   */
  function ListProspects(ps: seq<Prospect>, status: string): (r: seq<Prospect>)
    ensures status == "" ==> r == ps
    ensures status != "" ==> forall p :: p in r <==> p in ps && StatusName(p.status) == status
    ensures IsSubsequence(r, ps)
    ensures status != "" ==> forall p :: multiset(r)[p] == if StatusName(p.status) == status then multiset(ps)[p] else 0
  {
    SubsequenceReflexive(ps);
    var keep := (p: Prospect) => StatusName(p.status) == status;
    FilterCounts(ps, keep);
    if status != "" then Filter(ps, keep) else ps
  }

  /** Listing by a status's own name is the status filter. */
  lemma ListByStatusName(ps: seq<Prospect>, s: Status)
    ensures ListProspects(ps, StatusName(s)) == WithStatus(ps, s)
  {
    forall p: Prospect ensures (StatusName(p.status) == StatusName(s)) == (p.status == s) {
      StatusNameInjective(p.status, s);
    }
    FilterExtensional(ps, (p: Prospect) => StatusName(p.status) == StatusName(s), (p: Prospect) => p.status == s);
  }

  /** A status name that is not one of the five lists nothing ("No prospects found."). */
  lemma ListUnknownStatusIsEmpty(ps: seq<Prospect>, status: string)
    requires status != ""
    requires forall s: Status :: StatusName(s) != status
    ensures ListProspects(ps, status) == []
  {
    FilterNone(ps, (p: Prospect) => StatusName(p.status) == status);
  }

  /** Sum of `revenue` over all records. */
  function SumRevenue(ps: seq<Prospect>): (r: int)
    ensures (forall k :: 0 <= k < |ps| ==> ps[k].revenue >= 0) ==> r >= 0
    ensures (forall k :: 0 <= k < |ps| ==> ps[k].revenue == 0) ==> r == 0
  {
    if ps == [] then 0 else ps[0].revenue + SumRevenue(ps[1..])
  }

  /** Where every record is consistent, revenue is the fixed price times the number of converted records. */
  lemma {:induction false} RevenueIsPricePerConversion(ps: seq<Prospect>)
    requires forall k :: 0 <= k < |ps| ==> RecordConsistent(ps[k])
    ensures SumRevenue(ps) == ConversionRevenue * |Filter(ps, HasConvertedDate)|
  {
    if ps != [] {
      assert forall k :: 0 <= k < |ps[1..]| ==> ps[1..][k] == ps[k + 1];
      RevenueIsPricePerConversion(ps[1..]);
    }
  }

  /** Each record has exactly one of the five statuses, so the five status counts add up to the number of records. */
  lemma {:induction false} StatusCountsPartition(ps: seq<Prospect>)
    ensures |WithStatus(ps, New)| + |WithStatus(ps, Contacted)| + |WithStatus(ps, Replied)|
          + |WithStatus(ps, Converted)| + |WithStatus(ps, Delivered)| == |ps|
  {
    if ps != [] {
      StatusCountsPartition(ps[1..]);
      WithStatusStep(ps, New);
      WithStatusStep(ps, Contacted);
      WithStatusStep(ps, Replied);
      WithStatusStep(ps, Converted);
      WithStatusStep(ps, Delivered);
    }
  }

  /** The first record counts towards its own status and no other. */
  lemma WithStatusStep(ps: seq<Prospect>, s: Status)
    requires ps != []
    ensures |WithStatus(ps, s)| == (if ps[0].status == s then 1 else 0) + |WithStatus(ps[1..], s)|
  {
  }

  /** The figures printed by `report`. */
  datatype Report = Report(
    date: string,
    foundToday: nat,
    totalProspects: int,
    pending: nat,
    contacted: nat,
    converted: nat,
    revenue: int,
    readyToContact: seq<Prospect>)

  /** How many "new" records the report lists under "ready to contact". */
  const ReadyToContactLimit := 5

  function FoundOn(ps: seq<Prospect>, today: string): (r: seq<Prospect>)
    ensures forall p :: p in r <==> p in ps && p.foundDate == today
    ensures IsSubsequence(r, ps)
    ensures forall p :: multiset(r)[p] == if p.foundDate == today then multiset(ps)[p] else 0
  {
    var keep := (p: Prospect) => p.foundDate == today;
    FilterCounts(ps, keep);
    Filter(ps, keep)
  }

  /**
    `report`: records found today, the stored `total_found`, the number of
    records currently new / contacted / converted, the revenue sum, and the
    first five new records.
   */
  function DailyReport(d: Document, today: string): (r: Report)
    ensures r.date == today && r.totalProspects == d.stats.totalFound
    ensures r.foundToday == |FoundOn(d.prospects, today)| <= |d.prospects|
    ensures r.pending == |WithStatus(d.prospects, New)|
    ensures r.contacted == |WithStatus(d.prospects, Contacted)|
    ensures r.converted == |WithStatus(d.prospects, Converted)|
    ensures r.pending + r.contacted + r.converted <= |d.prospects|
    ensures r.revenue == SumRevenue(d.prospects)
    ensures |r.readyToContact| <= ReadyToContactLimit && |r.readyToContact| <= r.pending
    ensures r.readyToContact == Take(WithStatus(d.prospects, New), ReadyToContactLimit)
    ensures r.readyToContact <= WithStatus(d.prospects, New)
    ensures forall p :: p in r.readyToContact ==> p in d.prospects && p.status == New
  {
    StatusCountsPartition(d.prospects);
    var pending := WithStatus(d.prospects, New);
    Report(today, |FoundOn(d.prospects, today)|, d.stats.totalFound, |pending|,
           |WithStatus(d.prospects, Contacted)|, |WithStatus(d.prospects, Converted)|,
           SumRevenue(d.prospects), Take(pending, ReadyToContactLimit))
  }

  /**
    On a consistent store the report agrees with the counters: the total is
    the number of records, revenue is the price times the records ever
    converted, and the current contacted / converted figures never exceed
    the incrementally kept counters.
   */
  lemma ReportAgreesWithCounters(d: Document, today: string)
    requires Consistent(d)
    ensures DailyReport(d, today).totalProspects == |d.prospects|
    ensures DailyReport(d, today).revenue == ConversionRevenue * |Filter(d.prospects, HasConvertedDate)|
    ensures DailyReport(d, today).contacted <= d.stats.contacted
    ensures DailyReport(d, today).converted <= d.stats.converted
  {
    RevenueIsPricePerConversion(d.prospects);
    StatusImpliesStamp(d.prospects, Contacted, HasContactedDate);
    StatusImpliesStamp(d.prospects, Converted, HasConvertedDate);
  }

  /** When every record with status `s` satisfies `stamp`, there are no more of them than stamped records. */
  lemma {:induction false} StatusImpliesStamp(ps: seq<Prospect>, s: Status, stamp: Prospect -> bool)
    requires forall k :: 0 <= k < |ps| ==> ps[k].status == s ==> stamp(ps[k])
    ensures |WithStatus(ps, s)| <= |Filter(ps, stamp)|
  {
    if ps != [] {
      assert forall k :: 0 <= k < |ps[1..]| ==> ps[1..][k] == ps[k + 1];
      StatusImpliesStamp(ps[1..], s, stamp);
    }
  }

  // ---------------------------------------------------------------------
  // Monitoring groups

  datatype Group = Group(name: string, url: string, tier: int, checkFrequency: string)

  datatype Config = Config(groups: seq<Group>, keywords: seq<string>)

  /** The configuration written when no configuration file exists. */
  const DefaultConfig := Config(
    [ Group("Nashville Contractors & Subcontractors", "https://www.facebook.com/groups/nashvillecontractors", 1, "daily"),
      Group("Memphis Area Contractors", "https://www.facebook.com/groups/memphiscontractors", 1, "daily"),
      Group("Tennessee Home Improvement & Contractors", "https://www.facebook.com/groups/tnhomeimprovement", 1, "daily"),
      Group("Nashville Handyman Services", "https://www.facebook.com/groups/nashvillehandyman", 1, "daily"),
      Group("Who Do You Recommend Nashville", "https://www.facebook.com/groups/whodoyourecommendnashville", 3, "daily"),
      Group("Knoxville Contractors Network", "https://www.facebook.com/groups/knoxvillecontractors", 2, "weekly"),
      Group("Chattanooga Home Services", "https://www.facebook.com/groups/chattanoogahomeservices", 2, "weekly") ],
    [ "business card", "card", "contact", "here's my card",
      "recommend", "looking for", "need a", "know a good",
      "contractor", "handyman", "plumber", "electrician",
      "HVAC", "roofer", "painter", "landscaper" ])

  function LoadConfig(persisted: Option<Config>): (c: Config)
    ensures persisted.Some? ==> c == persisted.value
    ensures persisted.None? ==> c == DefaultConfig && |c.groups| == 7
    ensures persisted.None? ==> |c.keywords| == 16
  {
    persisted.GetOr(DefaultConfig)
  }

  /**
    The groups `monitor [--tier N]` opens, in configuration order: those
    of tier exactly `N` when `N` is given and non-zero (0 and "not given"
    are both falsy), all of them otherwise.
   */
  function GroupsToOpen(groups: seq<Group>, tier: int): (r: seq<Group>)
    ensures tier == 0 ==> r == groups
    ensures tier != 0 ==> forall g :: g in r <==> g in groups && g.tier == tier
    ensures IsSubsequence(r, groups)
    ensures tier != 0 ==> forall g :: multiset(r)[g] == if g.tier == tier then multiset(groups)[g] else 0
  {
    SubsequenceReflexive(groups);
    var keep := (g: Group) => g.tier == tier;
    FilterCounts(groups, keep);
    if tier != 0 then Filter(groups, keep) else groups
  }

  // ---------------------------------------------------------------------
  // Screenshot naming

  const ScreenshotsDir := "assets/screenshots"

  /**
    `screenshot NAME`: the file `{safe name}_{timestamp}.png` under the
    screenshots directory, with the timestamp (`%Y%m%d_%H%M%S`) supplied
    by the caller.
   */
  function ScreenshotFile(prospectName: string, timestamp: string): (r: string)
    ensures |r| == |prospectName| + |timestamp| + 5
    ensures r[..|prospectName|] == SafeName(prospectName)
    ensures r[|prospectName|] == '_'
    ensures r[|prospectName| + 1..|r| - 4] == timestamp
    ensures r[|r| - 4..] == ".png"
  {
    SafeName(prospectName) + "_" + timestamp + ".png"
  }

  /**
    At one timestamp two prospects get the same screenshot file exactly
    when their safe names agree, so names differing only in case or in
    spaces against underscores share a file and one capture replaces the
    other.
   */
  lemma ScreenshotFileCollides(a: string, b: string, timestamp: string)
    ensures ScreenshotFile(a, timestamp) == ScreenshotFile(b, timestamp) <==> SafeName(a) == SafeName(b)
  {
    if ScreenshotFile(a, timestamp) == ScreenshotFile(b, timestamp) {
      assert |a| == |b|;
      assert SafeName(a) == ScreenshotFile(a, timestamp)[..|a|];
    }
  }

  /** The screenshot's path: the file in the screenshots directory. */
  function ScreenshotPath(prospectName: string, timestamp: string): (r: string)
    ensures ScreenshotsDir + "/" <= r
    ensures r[|ScreenshotsDir| + 1..] == ScreenshotFile(prospectName, timestamp)
    ensures EndsWith(r, ".png")
  {
    EndsWithAppend(ScreenshotsDir + "/" + SafeName(prospectName) + "_" + timestamp, ".png");
    ScreenshotsDir + "/" + ScreenshotFile(prospectName, timestamp)
  }
}
