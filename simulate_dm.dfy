/**
  The DM simulation: for every prospect still "new", in list order, the
  outreach message of template A addressed to it and the name of the file
  the simulated message is saved under. Nothing is sent; the files'
  header lines and the console output are not modelled, and the current
  date (`date.today()`) is the parameter `today`.
 */
module SimulateDm {
  import opened Wrappers
  import opened Text
  import opened Collections
  import opened CardTemplate
  import opened ProspectStore
  import Redesign

  /** The five fields of template A. */
  datatype DmField = NameField | GroupField | TradeField | PreviewFileField | StripeLinkField

  /** `TEMPLATE_A`, the best-performing outreach message, with its fields in text order. */
  const TemplateA: Template<DmField> := [
    Lit("Hey "), Hole(NameField),
    Lit("! \U{1F44B}\n\nSaw your post in "), Hole(GroupField),
    Lit(" \U{2014} looks like you do great "), Hole(TradeField),
    Lit(" work! I actually do business card and brand design for contractors here in Tennessee.\n\n"
      + "I took a few minutes and mocked up what a refreshed version of your card could look like"
      + " (totally free, no strings attached). Thought you might like to see it:\n\n"
      + "\U{1F4CE} [ATTACHED: "), Hole(PreviewFileField),
    Lit("]\n\nIf you want the full print-ready files, it's just $50 and I can have them to you today."
      + " Includes 3 different design options + unlimited tweaks until you love it.\n\n"
      + "Payment link: "), Hole(StripeLinkField),
    Lit("\n\nEither way, keep crushing it! \U{1F4AA}")
  ]

  /** The payment link written into every message (a test-mode placeholder). */
  const StripeLink := "https://buy.stripe.com/test_XXXXXXXX"

  const SimulationsDir := "delivery/simulated-dms"

  /** The values `format` receives. */
  datatype DmArgs = DmArgs(name: string, group: string, trade: string, previewFile: string, stripeLink: string)

  function Arg(a: DmArgs, f: DmField): (r: string)
  {
    match f
    case NameField => a.name
    case GroupField => a.group
    case TradeField => a.trade
    case PreviewFileField => a.previewFile
    case StripeLinkField => a.stripeLink
  }

  /** The arguments as the field-to-value function `Format` takes. */
  function ArgValues(a: DmArgs): (r: DmField -> string)
  {
    (f: DmField) => Arg(a, f)
  }

  /** `TEMPLATE_A.format(name=…, group=…, trade=…, preview_file=…, stripe_link=…)`. */
  function Message(a: DmArgs): (r: string)
  {
    Format(TemplateA, ArgValues(a))
  }

  /** Where each field of template A sits. */
  lemma TemplateAHoles()
    ensures |TemplateA| == 11
    ensures TemplateA[1] == Hole(NameField) && TemplateA[3] == Hole(GroupField) && TemplateA[5] == Hole(TradeField)
    ensures TemplateA[7] == Hole(PreviewFileField) && TemplateA[9] == Hole(StripeLinkField)
  {
  }

  /**
    The message greets the addressee first ("Hey NAME"), and the group,
    the trade, the preview file and the payment link all appear in it.
   */
  lemma MessageMentions(a: DmArgs)
    ensures |Message(a)| >= 4 + |a.name| && Message(a)[..4 + |a.name|] == "Hey " + a.name
    ensures Occurs(a.group, Message(a))
    ensures Occurs(a.trade, Message(a))
    ensures Occurs(a.previewFile, Message(a))
    ensures Occurs(a.stripeLink, Message(a))
  {
    var v := ArgValues(a);
    TemplateAHoles();
    FormatPrefix(TemplateA, v, 2);
    var greeting: Template<DmField> := [Lit("Hey ")];
    var name: Template<DmField> := [Hole(NameField)];
    assert TemplateA[..2] == greeting + name;
    FormatAppend(greeting, name, v);
    assert Format(greeting, v) == "Hey " by {
      assert greeting[1..] == [];
    }
    assert Format(name, v) == a.name by {
      assert name[1..] == [];
    }
    FormatShowsHole(TemplateA, v, 3);
    FormatShowsHole(TemplateA, v, 5);
    FormatShowsHole(TemplateA, v, 7);
    FormatShowsHole(TemplateA, v, 9);
  }

  /**
    The file-name stem: the name lower-cased, spaces replaced by `_`, and
    apostrophes dropped.
   */
  function DmSafeName(name: string): (r: string)
    ensures |r| <= |name|
    ensures IsSubsequence(r, SafeName(name)) && '\'' !in r
    ensures |r| == |name| - multiset(SafeName(name))['\'']
  {
    RemoveCharKeepsOrder(SafeName(name), '\'');
    RemoveCharLength(SafeName(name), '\'');
    RemoveChar(SafeName(name), '\'')
  }

  /** The stem has no space, no apostrophe and no capital letter. */
  lemma DmSafeNameChars(name: string)
    ensures ' ' !in DmSafeName(name)
    ensures '\'' !in DmSafeName(name)
    ensures forall c :: c in DmSafeName(name) ==> !IsUpper(c)
  {
    SafeNameChars(name);
    forall c | c in DmSafeName(name) ensures !IsUpper(c) {
      var k :| 0 <= k < |SafeName(name)| && SafeName(name)[k] == c;
    }
  }

  /** For a name without an apostrophe the stem is the redesign's safe name, so both scripts name a prospect's files alike. */
  lemma DmSafeNameWithoutApostrophe(name: string)
    requires '\'' !in name
    ensures DmSafeName(name) == SafeName(name)
  {
    SafeNameChars(name);
    assert '\'' !in SafeName(name) by {
      forall k | 0 <= k < |name| ensures SafeName(name)[k] != '\'' {
        assert name[k] != '\'';
      }
    }
    RemoveAbsentChar(SafeName(name), '\'');
  }

  /**
    With an apostrophe in the name the two stems part: the redesign keeps
    it, the simulation drops it, so the preview pattern of the message
    does not start like the page the redesign saved.
   */
  lemma ApostropheSplitsTheStems()
    ensures SafeName("Joe's") == "joe's"
    ensures DmSafeName("Joe's") == "joes"
  {
    SafeNameOfJoes();
    DropApostropheOfJoes();
  }

  lemma SafeNameOfJoes()
    ensures SafeName("Joe's") == "joe's"
  {
    var s := SafeName("Joe's");
    assert s[0] == 'j' && s[1] == 'o' && s[2] == 'e' && s[3] == '\'' && s[4] == 's';
  }

  lemma DropApostropheOfJoes()
    ensures RemoveChar("joe's", '\'') == "joes"
  {
    assert RemoveChar("s", '\'') == "s" by { assert "s"[1..] == ""; }
    assert RemoveChar("'s", '\'') == "s" by { assert "'s"[1..] == "s"; }
    assert RemoveChar("e's", '\'') == "es" by { assert "e's"[1..] == "'s"; }
    assert RemoveChar("oe's", '\'') == "oes" by { assert "oe's"[1..] == "e's"; }
    assert "joe's"[1..] == "oe's";
  }

  /** `{safe_name}_clean_professional_*_preview.html`: the watermarked preview page, whatever its date. */
  function PreviewPattern(safeName: string): (r: string)
    ensures safeName <= r
    ensures EndsWith(r, "_*_preview.html")
  {
    EndsWithAppend(safeName + "_" + Redesign.DefaultTemplateName, "_*_preview.html");
    safeName + "_" + Redesign.DefaultTemplateName + "_*_preview.html"
  }

  /**
    The pattern is the redesign's preview page name with `*` in the place
    of the date: filling in a date gives the page the redesign saves
    beside its clean professional preview for that date.
   */
  lemma PreviewPatternNamesPreviewPage(name: string, timestamp: string)
    requires '\'' !in name
    ensures var stem := SafeName(name) + "_" + Redesign.DefaultTemplateName + "_";
      && PreviewPattern(DmSafeName(name)) == stem + "*" + "_preview.html"
      && Redesign.HtmlSibling(Redesign.PreviewPath(SafeName(name), Redesign.DefaultTemplateName, timestamp))
         == Redesign.WatermarkDir + "/" + stem + timestamp + "_preview.html"
  {
    PatternWithoutApostrophe(name);
    Redesign.PreviewPageName(SafeName(name), Redesign.DefaultTemplateName, timestamp);
  }

  lemma PatternWithoutApostrophe(name: string)
    requires '\'' !in name
    ensures PreviewPattern(DmSafeName(name)) == SafeName(name) + "_" + Redesign.DefaultTemplateName + "_" + "*" + "_preview.html"
  {
    DmSafeNameWithoutApostrophe(name);
  }

  /**
    With an apostrophe in the name, the text of the pattern before its `*`
    does not begin the name of the preview page the redesign saves, for
    any date, so the pattern names no saved page.
   */
  lemma ApostropheMissesPreviewPage(name: string, timestamp: string)
    requires '\'' in name
    ensures var fixed := "_" + Redesign.DefaultTemplateName + "_";
      && PreviewPattern(DmSafeName(name)) == DmSafeName(name) + fixed + "*_preview.html"
      && Redesign.HtmlSibling(Redesign.PreviewPath(SafeName(name), Redesign.DefaultTemplateName, timestamp))
         == Redesign.WatermarkDir + "/" + SafeName(name) + fixed + timestamp + "_preview.html"
      && !(DmSafeName(name) + fixed <= SafeName(name) + fixed + timestamp + "_preview.html")
  {
    ApostropheStemMissesPage(name, "_" + Redesign.DefaultTemplateName + "_", timestamp + "_preview.html");
    Redesign.PreviewPageName(SafeName(name), Redesign.DefaultTemplateName, timestamp);
  }

  lemma ApostropheStemMissesPage(name: string, fixed: string, rest: string)
    requires '\'' in name && fixed != [] && '\'' !in fixed
    ensures !(DmSafeName(name) + fixed <= SafeName(name) + fixed + rest)
  {
    var stem := SafeName(name);
    assert '\'' in stem by {
      var i :| 0 <= i < |name| && name[i] == '\'';
      assert stem[i] == '\'';
    }
    RemoveCharBreaksPrefix(stem, '\'', fixed, fixed + rest);
    assert stem + fixed + rest == stem + (fixed + rest);
  }

  /** The saved simulation: `dm_{safe_name}_{date}.txt` in the simulations directory. */
  function SimFile(safeName: string, today: string): (r: string)
    ensures SimulationsDir + "/dm_" <= r
    ensures EndsWith(r, ".txt")
  {
    EndsWithAppend(SimulationsDir + "/dm_" + safeName + "_" + today, ".txt");
    SimulationsDir + "/dm_" + safeName + "_" + today + ".txt"
  }

  /** On one day, different stems give different files. */
  lemma SimFileInjective(a: string, b: string, today: string)
    requires SimFile(a, today) == SimFile(b, today)
    ensures a == b
  {
    var n := |SimulationsDir| + 4;
    assert |a| == |b|;
    assert SimFile(a, today)[n..n + |a|] == a;
    assert SimFile(b, today)[n..n + |b|] == b;
  }

  /** `prospect.get("owner_name", prospect["name"])`. */
  function DisplayName(p: Prospect): (r: string)
    ensures p.ownerName.Some? ==> r == p.ownerName.value
    ensures p.ownerName.None? ==> r == p.name
  {
    p.ownerName.GetOr(p.name)
  }

  /** The group as `format` prints it: a missing group source prints as `None`. */
  function GroupText(p: Prospect): (r: string)
    ensures p.groupSource.Some? ==> r == p.groupSource.value
    ensures p.groupSource.None? ==> r == "None"
  {
    p.groupSource.GetOr("None")
  }

  /** One simulated message and the file it is saved under. */
  datatype SimulatedDm = SimulatedDm(file: string, message: string)

  /** The arguments template A is formatted with for `p`. */
  function ArgsFor(p: Prospect): (r: DmArgs)
  {
    DmArgs(DisplayName(p), GroupText(p), p.trade, PreviewPattern(DmSafeName(p.name)), StripeLink)
  }

  /** The simulation for one prospect. */
  function DmFor(p: Prospect, today: string): (r: SimulatedDm)
  {
    SimulatedDm(SimFile(DmSafeName(p.name), today), Message(ArgsFor(p)))
  }

  /** Every simulated message greets the prospect and carries its preview pattern and the payment link. */
  lemma DmForMentions(p: Prospect, today: string)
    ensures var m := DmFor(p, today).message;
      && |m| >= 4 + |DisplayName(p)| && m[..4 + |DisplayName(p)|] == "Hey " + DisplayName(p)
      && Occurs(PreviewPattern(DmSafeName(p.name)), m)
      && Occurs(StripeLink, m)
      && Occurs(p.trade, m)
  {
    MessageMentions(ArgsFor(p));
  }

  predicate IsNew(p: Prospect) { p.status == New }

  /** The simulation of one prospect on the day `today`, as a function of the prospect. */
  function DmOn(today: string): (r: Prospect -> SimulatedDm)
  {
    (p: Prospect) => DmFor(p, today)
  }

  /**
    The run simulates exactly the new prospects: one message each, in list
    order, and none for a prospect in any other status.
   */
  lemma SimulatesTheNewOnes(ps: seq<Prospect>, today: string)
    ensures |FilterMap(ps, IsNew, DmOn(today))| <= |ps|
    ensures forall k :: 0 <= k < |Filter(ps, IsNew)| ==>
      FilterMap(ps, IsNew, DmOn(today))[k] == DmFor(Filter(ps, IsNew)[k], today) && Filter(ps, IsNew)[k].status == New
    ensures (forall p :: p in ps ==> p.status != New) ==> FilterMap(ps, IsNew, DmOn(today)) == []
  {
    var news := Filter(ps, IsNew);
    forall k | 0 <= k < |news|
      ensures FilterMap(ps, IsNew, DmOn(today))[k] == DmFor(news[k], today) && news[k].status == New
    {
      FilterMapAt(ps, IsNew, DmOn(today), k);
      assert news[k] in news;
    }
    if forall p :: p in ps ==> p.status != New {
      FilterNone(ps, IsNew);
    }
  }

  /**
    The body of the loop for one new prospect: its stem, preview pattern and
    display name, the formatted message and the file it is saved under.
   */
  method SimulateOne(prospect: Prospect, today: string) returns (dm: SimulatedDm)
    ensures dm == DmFor(prospect, today)
  {
    var safeName := DmSafeName(prospect.name);
    var previewFile := PreviewPattern(safeName);
    var displayName := DisplayName(prospect);
    var message := Message(DmArgs(displayName, GroupText(prospect), prospect.trade, previewFile, StripeLink));
    var simFile := SimFile(safeName, today);
    dm := SimulatedDm(simFile, message);
  }

  /**
    `simulate_all`: walks the prospects in order, skips every one whose
    status is not "new", and produces the message and file name of each
    other one; `reported` is the count printed at the end, the number of
    new prospects.
   */
  method SimulateAll(ps: seq<Prospect>, today: string) returns (dms: seq<SimulatedDm>, reported: nat)
    ensures dms == FilterMap(ps, IsNew, DmOn(today))
    ensures reported == |Filter(ps, IsNew)| == |dms|
  {
    dms := [];
    for i := 0 to |ps|
      invariant dms == FilterMap(ps[..i], IsNew, DmOn(today))
    {
      var prospect := ps[i];
      assert ps[..i + 1][..i] == ps[..i];
      if prospect.status != New {
        continue;
      }
      var dm := SimulateOne(prospect, today);
      dms := dms + [dm];
    }
    assert ps[..|ps|] == ps;
    reported := |Filter(ps, IsNew)|;
  }
}
