/**
  The prospect store of the group monitor: an ordered list of prospect
  records plus three counters kept up incrementally, the `add` operation
  and the status state machine `update`.

  The JSON file is modelled as an in-memory `Document`: loading is
  `LoadDocument` (an absent file gives the empty document), saving is the
  identity. The current date is a parameter (`today`, ISO `YYYY-MM-DD`).
 */
module ProspectStore {
  import opened Wrappers
  import opened Collections

  /** The five statuses accepted by the `update` command. */
  datatype Status = New | Contacted | Replied | Converted | Delivered

  /** The status as it is stored in the JSON document. */
  function StatusName(s: Status): (r: string)
    ensures |r| > 0
  {
    match s
    case New => "new"
    case Contacted => "contacted"
    case Replied => "replied"
    case Converted => "converted"
    case Delivered => "delivered"
  }

  /** Distinct statuses are stored under distinct names, so a name filter is a status filter. */
  lemma StatusNameInjective(s: Status, t: Status)
    ensures StatusName(s) == StatusName(t) <==> s == t
  {
  }

  /**
    One prospect record. Optional JSON fields are `Option`s;
    `ownerName` is never written by `add` but is read by the DM
    simulation when a hand-edited record carries it.
   */
  datatype Prospect = Prospect(
    id: int,
    name: string,
    trade: string,
    phone: Option<string>,
    groupSource: Option<string>,
    cardScore: Option<int>,
    screenshotPath: Option<string>,
    notes: Option<string>,
    status: Status,
    foundDate: string,
    contactedDate: Option<string>,
    convertedDate: Option<string>,
    revenue: int,
    ownerName: Option<string>)

  datatype Stats = Stats(totalFound: int, contacted: int, converted: int)

  datatype Document = Document(prospects: seq<Prospect>, stats: Stats)

  /** The fields the caller of `add` supplies. */
  datatype ProspectArgs = ProspectArgs(
    name: string,
    trade: string,
    phone: Option<string>,
    groupSource: Option<string>,
    cardScore: Option<int>,
    screenshotPath: Option<string>,
    notes: Option<string>)

  /** The fixed price recorded as revenue when a prospect converts. */
  const ConversionRevenue := 50

  /** Loading the store: the persisted document if there is one, else an empty store with zero counters. */
  function LoadDocument(persisted: Option<Document>): (d: Document)
    ensures persisted.Some? ==> d == persisted.value
    ensures persisted.None? ==> d.prospects == [] && d.stats == Stats(0, 0, 0)
    ensures persisted.None? ==> Consistent(d)
  {
    match persisted
    case Some(doc) => doc
    case None => Document([], Stats(0, 0, 0))
  }

  /** The record `add` creates for the given arguments. */
  function NewProspect(id: int, args: ProspectArgs, today: string): (p: Prospect)
    ensures p.id == id && p.name == args.name && p.trade == args.trade
    ensures p.phone == args.phone && p.groupSource == args.groupSource && p.cardScore == args.cardScore
    ensures p.screenshotPath == args.screenshotPath && p.notes == args.notes
    ensures p.status == New && p.foundDate == today
    ensures p.contactedDate == None && p.convertedDate == None && p.revenue == 0 && p.ownerName == None
    ensures RecordConsistent(p)
  {
    Prospect(id, args.name, args.trade, args.phone, args.groupSource, args.cardScore,
             args.screenshotPath, args.notes, New, today, None, None, 0, None)
  }

  /**
    The document after `add`: one record appended at the end with id
    `old length + 1`, the existing records untouched, `total_found` one
    higher and the other counters unchanged.
   */
  function Added(d: Document, args: ProspectArgs, today: string): (r: Document)
    ensures |r.prospects| == |d.prospects| + 1
    ensures r.prospects[..|d.prospects|] == d.prospects
    ensures r.prospects[|d.prospects|] == NewProspect(|d.prospects| + 1, args, today)
    ensures r.stats.totalFound == d.stats.totalFound + 1
    ensures r.stats.contacted == d.stats.contacted && r.stats.converted == d.stats.converted
  {
    Document(d.prospects + [NewProspect(|d.prospects| + 1, args, today)],
             d.stats.(totalFound := d.stats.totalFound + 1))
  }

  /** The index of the first record with the given id, which is the record `update` changes. */
  function FirstIndexOf(ps: seq<Prospect>, id: int): (r: Option<nat>)
    ensures r.None? <==> forall k :: 0 <= k < |ps| ==> ps[k].id != id
    ensures r.Some? ==> r.value < |ps| && ps[r.value].id == id
    ensures r.Some? ==> forall k :: 0 <= k < r.value ==> ps[k].id != id
  {
    if ps == [] then None
    else if ps[0].id == id then Some(0)
    else match FirstIndexOf(ps[1..], id)
      case None => None
      case Some(j) => Some(j + 1)
  }

  /**
    The record after its status is set to `s`: entering `contacted`
    stamps `contacted_date`; entering `converted` stamps `converted_date`
    and records the fixed revenue; every other status changes only the
    status field. There is no guard against re-entering a status.
   */
  function ApplyStatus(p: Prospect, s: Status, today: string): (q: Prospect)
    ensures q.status == s
    ensures q.id == p.id && q.name == p.name && q.trade == p.trade && q.foundDate == p.foundDate
    ensures q.contactedDate == (if s == Contacted then Some(today) else p.contactedDate)
    ensures q.convertedDate == (if s == Converted then Some(today) else p.convertedDate)
    ensures q.revenue == (if s == Converted then ConversionRevenue else p.revenue)
    ensures s != Contacted && s != Converted ==> q == p.(status := s)
    ensures q.(status := p.status, contactedDate := p.contactedDate, convertedDate := p.convertedDate, revenue := p.revenue) == p
  {
    match s
    case Contacted => p.(status := s, contactedDate := Some(today))
    case Converted => p.(status := s, convertedDate := Some(today), revenue := ConversionRevenue)
    case _ => p.(status := s)
  }

  /** The counters after entering `s`: one more `contacted` or `converted` on every entry, repeats included. */
  function CountersAfter(st: Stats, s: Status): (r: Stats)
    ensures r.totalFound == st.totalFound
    ensures r.contacted == st.contacted + (if s == Contacted then 1 else 0)
    ensures r.converted == st.converted + (if s == Converted then 1 else 0)
  {
    match s
    case Contacted => st.(contacted := st.contacted + 1)
    case Converted => st.(converted := st.converted + 1)
    case _ => st
  }

  /**
    The document after `update(id, s)`: `None` (not found, nothing saved)
    exactly when no record has that id; otherwise only the first record
    with that id changes.
   */
  function AfterUpdate(d: Document, id: int, s: Status, today: string): (r: Option<Document>)
    ensures r.None? <==> forall k :: 0 <= k < |d.prospects| ==> d.prospects[k].id != id
    ensures r.Some? ==> FirstIndexOf(d.prospects, id).Some?
    ensures r.Some? ==>
      var i := FirstIndexOf(d.prospects, id).value;
      && |r.value.prospects| == |d.prospects|
      && r.value.prospects[i] == ApplyStatus(d.prospects[i], s, today)
      && (forall k :: 0 <= k < |d.prospects| && k != i ==> r.value.prospects[k] == d.prospects[k])
      && r.value.stats == CountersAfter(d.stats, s)
  {
    match FirstIndexOf(d.prospects, id)
    case None => None
    case Some(i) =>
      Some(Document(d.prospects[i := ApplyStatus(d.prospects[i], s, today)], CountersAfter(d.stats, s)))
  }

  // ---------------------------------------------------------------------
  // The store invariant

  /** Ids are `1..N` in list order. */
  predicate IdsSequential(ps: seq<Prospect>)
  {
    forall k :: 0 <= k < |ps| ==> ps[k].id == k + 1
  }

  predicate HasContactedDate(p: Prospect) { p.contactedDate.Some? }

  predicate HasConvertedDate(p: Prospect) { p.convertedDate.Some? }

  /** What the transitions keep true of each record. */
  predicate RecordConsistent(p: Prospect)
  {
    && p.revenue == (if p.convertedDate.Some? then ConversionRevenue else 0)
    && (p.status == Contacted ==> p.contactedDate.Some?)
    && (p.status == Converted ==> p.convertedDate.Some?)
  }

  /**
    What `add` and `update` keep true of a store that starts empty:
    ids `1..N`, `total_found == N`, revenue set exactly on converted
    records, and counters at least the number of stamped records (more
    when a status was entered repeatedly).
   */
  predicate Consistent(d: Document)
  {
    && IdsSequential(d.prospects)
    && d.stats.totalFound == |d.prospects|
    && (forall k :: 0 <= k < |d.prospects| ==> RecordConsistent(d.prospects[k]))
    && d.stats.contacted >= |Filter(d.prospects, HasContactedDate)|
    && d.stats.converted >= |Filter(d.prospects, HasConvertedDate)|
  }

  /** `add` keeps the invariant; in particular `total_found == |prospects|` survives every add. */
  lemma AddedPreservesConsistent(d: Document, args: ProspectArgs, today: string)
    requires Consistent(d)
    ensures Consistent(Added(d, args, today))
  {
    var r := Added(d, args, today);
    var p := NewProspect(|d.prospects| + 1, args, today);
    assert r.prospects == d.prospects + [p];
    FilterSnoc(d.prospects, p, HasContactedDate);
    FilterSnoc(d.prospects, p, HasConvertedDate);
  }

  /** `update` keeps the invariant, whatever the target status and however often it is entered. */
  lemma AfterUpdatePreservesConsistent(d: Document, id: int, s: Status, today: string)
    requires Consistent(d)
    requires AfterUpdate(d, id, s, today).Some?
    ensures Consistent(AfterUpdate(d, id, s, today).value)
  {
    var r := AfterUpdate(d, id, s, today).value;
    var i := FirstIndexOf(d.prospects, id).value;
    var q := ApplyStatus(d.prospects[i], s, today);
    assert r.prospects == d.prospects[i := q];
    FilterLengthUpdate(d.prospects, i, q, HasContactedDate);
    FilterLengthUpdate(d.prospects, i, q, HasConvertedDate);
  }

  /** In a consistent store the record with id `n` sits at index `n - 1`; other ids are not found. */
  lemma UpdateTargetsIdMinusOne(d: Document, id: int)
    requires Consistent(d)
    ensures 1 <= id <= |d.prospects| ==> FirstIndexOf(d.prospects, id) == Some(id - 1)
    ensures !(1 <= id <= |d.prospects|) ==> FirstIndexOf(d.prospects, id) == None
  {
    if 1 <= id <= |d.prospects| {
      assert d.prospects[id - 1].id == id;
    }
  }

  /** `update` looks records up by id alone, so two lists with the same ids find the same record. */
  lemma {:induction false} FirstIndexOfDependsOnIds(ps: seq<Prospect>, qs: seq<Prospect>, id: int)
    requires |ps| == |qs|
    requires forall k :: 0 <= k < |ps| ==> ps[k].id == qs[k].id
    ensures FirstIndexOf(ps, id) == FirstIndexOf(qs, id)
  {
    if ps != [] && ps[0].id != id {
      FirstIndexOfDependsOnIds(ps[1..], qs[1..], id);
    }
  }

  /**
    Re-entering `contacted` is counted again: two `update(id, contacted)`
    calls raise `stats.contacted` by two, and the second one restamps the date.
   */
  lemma ContactedTwiceCountsTwice(d: Document, id: int, today1: string, today2: string)
    requires AfterUpdate(d, id, Contacted, today1).Some?
    ensures
      var d1 := AfterUpdate(d, id, Contacted, today1).value;
      var d2 := AfterUpdate(d1, id, Contacted, today2);
      && d2.Some?
      && d2.value.stats.contacted == d.stats.contacted + 2
      && d2.value.prospects[FirstIndexOf(d.prospects, id).value].contactedDate == Some(today2)
  {
    var d1 := AfterUpdate(d, id, Contacted, today1).value;
    FirstIndexOfDependsOnIds(d.prospects, d1.prospects, id);
  }

  /** `n` adds in a row, each with its own arguments and date. */
  datatype AddRequest = AddRequest(args: ProspectArgs, today: string)

  function AddAll(d: Document, reqs: seq<AddRequest>): (r: Document)
    decreases |reqs|
  {
    if reqs == [] then d
    else AddAll(Added(d, reqs[0].args, reqs[0].today), reqs[1..])
  }

  /**
    Adds never disturb what is there: after `n` adds the old records are a
    prefix, the k-th new record carries the k-th request with id
    `old length + k + 1`, and `total_found` is `n` higher.
   */
  lemma {:induction false} AddAllAppends(d: Document, reqs: seq<AddRequest>)
    ensures |AddAll(d, reqs).prospects| == |d.prospects| + |reqs|
    ensures AddAll(d, reqs).prospects[..|d.prospects|] == d.prospects
    ensures AddAll(d, reqs).stats.totalFound == d.stats.totalFound + |reqs|
    ensures forall k :: 0 <= k < |reqs| ==>
      AddAll(d, reqs).prospects[|d.prospects| + k]
        == NewProspect(|d.prospects| + k + 1, reqs[k].args, reqs[k].today)
    decreases |reqs|
  {
    if reqs != [] {
      var d1 := Added(d, reqs[0].args, reqs[0].today);
      AddAllAppends(d1, reqs[1..]);
      var r := AddAll(d, reqs);
      assert r == AddAll(d1, reqs[1..]);
      assert r.prospects[..|d.prospects|] == r.prospects[..|d1.prospects|][..|d.prospects|];
      forall k | 0 <= k < |reqs|
        ensures r.prospects[|d.prospects| + k] == NewProspect(|d.prospects| + k + 1, reqs[k].args, reqs[k].today)
      {
        if k > 0 {
          assert reqs[1..][k - 1] == reqs[k];
        }
      }
    }
  }

  /** From an empty store, `n` adds give ids exactly `1..n` in order and `total_found == n`. */
  lemma AddsFromEmpty(reqs: seq<AddRequest>)
    ensures |AddAll(LoadDocument(None), reqs).prospects| == |reqs|
    ensures IdsSequential(AddAll(LoadDocument(None), reqs).prospects)
    ensures AddAll(LoadDocument(None), reqs).stats.totalFound == |reqs|
    ensures forall k :: 0 <= k < |reqs| ==>
      AddAll(LoadDocument(None), reqs).prospects[k].name == reqs[k].args.name
      && AddAll(LoadDocument(None), reqs).prospects[k].status == New
  {
    var e := LoadDocument(None);
    assert |e.prospects| == 0 && e.stats.totalFound == 0;
    AddAllAppends(e, reqs);
    var ps := AddAll(e, reqs).prospects;
    forall k | 0 <= k < |reqs|
      ensures ps[k].id == k + 1 && ps[k].name == reqs[k].args.name && ps[k].status == New
    {
      assert ps[|e.prospects| + k] == NewProspect(k + 1, reqs[k].args, reqs[k].today);
    }
  }

  /** Any mix of adds and updates from an empty store keeps the invariant. */
  datatype Command = Add(req: AddRequest) | Update(id: int, status: Status, today: string)

  function Run(d: Document, cmds: seq<Command>): (r: Document)
    decreases |cmds|
  {
    if cmds == [] then d
    else
      var d1 := match cmds[0]
        case Add(req) => Added(d, req.args, req.today)
        case Update(id, s, today) => AfterUpdate(d, id, s, today).GetOr(d);
      Run(d1, cmds[1..])
  }

  lemma {:induction false} RunPreservesConsistent(d: Document, cmds: seq<Command>)
    requires Consistent(d)
    ensures Consistent(Run(d, cmds))
    decreases |cmds|
  {
    if cmds != [] {
      match cmds[0]
      case Add(req) =>
        AddedPreservesConsistent(d, req.args, req.today);
        RunPreservesConsistent(Added(d, req.args, req.today), cmds[1..]);
      case Update(id, s, today) =>
        if AfterUpdate(d, id, s, today).Some? {
          AfterUpdatePreservesConsistent(d, id, s, today);
        }
        RunPreservesConsistent(AfterUpdate(d, id, s, today).GetOr(d), cmds[1..]);
    }
  }

  /** Every store reachable from the empty one satisfies the invariant. */
  lemma ReachableIsConsistent(cmds: seq<Command>)
    ensures Consistent(Run(LoadDocument(None), cmds))
  {
    RunPreservesConsistent(LoadDocument(None), cmds);
  }

  // ---------------------------------------------------------------------
  // The store as the scripts mutate it

  /**
    The loaded document, updated in place: `add_prospect` appends to the
    record list and bumps `total_found`; `update_status` scans for the id,
    edits the record it finds and bumps a counter.
   */
  class ProspectDb {
    var prospects: seq<Prospect>
    var stats: Stats

    function Doc(): (r: Document)
      reads this
    {
      Document(prospects, stats)
    }

    constructor Load(persisted: Option<Document>)
      ensures Doc() == LoadDocument(persisted)
    {
      match persisted {
        case Some(doc) =>
          prospects, stats := doc.prospects, doc.stats;
        case None =>
          prospects, stats := [], Stats(0, 0, 0);
      }
    }

    method AddProspect(args: ProspectArgs, today: string) returns (p: Prospect)
      modifies this
      ensures p == NewProspect(|old(prospects)| + 1, args, today)
      ensures Doc() == Added(old(Doc()), args, today)
      ensures Consistent(old(Doc())) ==> Consistent(Doc())
    {
      p := Prospect(|prospects| + 1, args.name, args.trade, args.phone, args.groupSource, args.cardScore,
                    args.screenshotPath, args.notes, New, today, None, None, 0, None);
      prospects := prospects + [p];
      stats := stats.(totalFound := stats.totalFound + 1);
      if Consistent(old(Doc())) {
        AddedPreservesConsistent(old(Doc()), args, today);
      }
    }

    /** Returns whether a record with `id` was found; when not, nothing changes. */
    method UpdateStatus(id: int, newStatus: Status, today: string) returns (found: bool)
      modifies this
      ensures found <==> AfterUpdate(old(Doc()), id, newStatus, today).Some?
      ensures found ==> Doc() == AfterUpdate(old(Doc()), id, newStatus, today).value
      ensures !found ==> Doc() == old(Doc())
      ensures Consistent(old(Doc())) ==> Consistent(Doc())
    {
      var i := 0;
      while i < |prospects|
        invariant 0 <= i <= |prospects|
        invariant prospects == old(prospects) && stats == old(stats)
        invariant forall k :: 0 <= k < i ==> prospects[k].id != id
      {
        if prospects[i].id == id {
          var p := prospects[i].(status := newStatus);
          if newStatus == Contacted {
            p := p.(contactedDate := Some(today));
            stats := stats.(contacted := stats.contacted + 1);
          } else if newStatus == Converted {
            p := p.(convertedDate := Some(today), revenue := ConversionRevenue);
            stats := stats.(converted := stats.converted + 1);
          }
          prospects := prospects[i := p];
          assert FirstIndexOf(old(prospects), id) == Some(i);
          if Consistent(old(Doc())) {
            AfterUpdatePreservesConsistent(old(Doc()), id, newStatus, today);
          }
          return true;
        }
        i := i + 1;
      }
      return false;
    }
  }

  /**
    End-to-end scenario: add "Joe Smith" (plumber, score 2) to an empty
    store, mark it contacted, then converted.
   */
  lemma JoeSmithScenario(today: string)
    ensures
      var args := ProspectArgs("Joe Smith", "plumber", None, None, Some(2), None, None);
      var d1 := Added(LoadDocument(None), args, today);
      var d2 := AfterUpdate(d1, 1, Contacted, today);
      var d3 := if d2.Some? then AfterUpdate(d2.value, 1, Converted, today) else None;
      && |d1.prospects| == 1 && d1.prospects[0].id == 1 && d1.prospects[0].status == New
      && d2.Some? && d2.value.prospects[0].contactedDate == Some(today) && d2.value.stats.contacted == 1
      && d3.Some? && d3.value.prospects[0].revenue == 50 && d3.value.stats.converted == 1
  {
    var args := ProspectArgs("Joe Smith", "plumber", None, None, Some(2), None, None);
    var d1 := Added(LoadDocument(None), args, today);
    assert FirstIndexOf(d1.prospects, 1) == Some(0);
    var d2 := AfterUpdate(d1, 1, Contacted, today).value;
    assert FirstIndexOf(d2.prospects, 1) == Some(0);
  }
}
