/**
  Placeholder templates: Python's `string.Template` with `${name}`
  placeholders and its `safe_substitute`, and the `{name}` fields of
  `str.format`. A template is a sequence of literal pieces and holes;
  a hole whose name is in the mapping is replaced by its value (once,
  the value itself is not scanned again), any other hole is left in
  the output verbatim, and substitution never fails.
  Hole names are drawn from a key type `K`; `spell` gives the name as
  it is written inside the placeholder. Literal pieces contain no
  placeholder syntax, as in every template of the scripts.
 */
module CardTemplate {
  import opened Text

  datatype Segment<K> = Lit(text: string) | Hole(name: K)

  type Template<K> = seq<Segment<K>>

  /** The placeholder as it appears in a `string.Template` text. */
  function Placeholder(name: string): (r: string)
    ensures |r| == |name| + 3 && r[0] == '$' && r[1] == '{' && r[|r| - 1] == '}'
    ensures r[2..|r| - 1] == name
  {
    "${" + name + "}"
  }

  /** The template's own text: what `safe_substitute` gives when nothing is supplied. */
  function Source<K>(t: Template<K>, spell: K -> string): (r: string)
  {
    if t == [] then ""
    else (match t[0] case Lit(s) => s case Hole(n) => Placeholder(spell(n))) + Source(t[1..], spell)
  }

  /** The names of the holes of `t`. */
  function HoleNames<K(!new)>(t: Template<K>): (r: set<K>)
    ensures forall n :: n in r <==> Hole(n) in t
  {
    if t == [] then {}
    else (if t[0].Hole? then {t[0].name} else {}) + HoleNames(t[1..])
  }

  /** The output of one segment. */
  function SegmentOut<K>(s: Segment<K>, m: map<K, string>, spell: K -> string): (r: string)
  {
    match s
    case Lit(text) => text
    case Hole(n) => if n in m then m[n] else Placeholder(spell(n))
  }

  /** `Template(t).safe_substitute(m)`. */
  function SafeSubstitute<K>(t: Template<K>, m: map<K, string>, spell: K -> string): (r: string)
  {
    if t == [] then "" else SegmentOut(t[0], m, spell) + SafeSubstitute(t[1..], m, spell)
  }

  /**
    Substitution works piece by piece: the output of `t + u` is the
    output of `t` followed by that of `u`. Nothing a value inserts is
    read as a placeholder again.
   */
  lemma {:induction false} SubstituteAppend<K>(t: Template<K>, u: Template<K>, m: map<K, string>, spell: K -> string)
    ensures SafeSubstitute(t + u, m, spell) == SafeSubstitute(t, m, spell) + SafeSubstitute(u, m, spell)
  {
    if t == [] {
      assert t + u == u;
    } else {
      assert (t + u)[1..] == t[1..] + u;
      SubstituteAppend(t[1..], u, m, spell);
    }
  }

  /** With an empty mapping every placeholder is left as it was: the output is the template's text. */
  lemma {:induction false} SubstituteNothing<K>(t: Template<K>, spell: K -> string)
    ensures SafeSubstitute(t, map[], spell) == Source(t, spell)
  {
    if t != [] {
      SubstituteNothing(t[1..], spell);
    }
  }

  /** Only the values of the template's own holes matter. */
  lemma {:induction false} SubstituteDependsOnHoles<K(!new)>(t: Template<K>, m1: map<K, string>, m2: map<K, string>, spell: K -> string)
    requires forall n :: n in HoleNames(t) ==> (n in m1 <==> n in m2) && (n in m1 ==> m1[n] == m2[n])
    ensures SafeSubstitute(t, m1, spell) == SafeSubstitute(t, m2, spell)
  {
    if t != [] {
      SubstituteDependsOnHoles(t[1..], m1, m2, spell);
    }
  }

  /** `t` with the holes named in `k` deleted. */
  function WithoutHoles<K(!new)>(t: Template<K>, k: set<K>): (r: Template<K>)
    ensures |r| <= |t|
    ensures HoleNames(r) == HoleNames(t) - k
  {
    if t == [] then []
    else if t[0].Hole? && t[0].name in k then WithoutHoles(t[1..], k)
    else [t[0]] + WithoutHoles(t[1..], k)
  }

  /** A value inserted at a hole is exactly the mapped string, and a hole outside the mapping survives verbatim. */
  lemma HoleOutput<K>(n: K, m: map<K, string>, spell: K -> string)
    ensures n in m ==> SafeSubstitute([Hole(n)], m, spell) == m[n]
    ensures n !in m ==> SafeSubstitute([Hole(n)], m, spell) == Placeholder(spell(n))
  {
    assert [Hole(n)][1..] == [];
  }

  /**
    Mapping some names to the empty string is the same as deleting their
    holes and substituting with any mapping that agrees on the other
    names: the "clean" output is the "marked" one minus those slots.
   */
  lemma {:induction false} EmptySlotsAreDeleted<K(!new)>(t: Template<K>, k: set<K>, blank: map<K, string>, m: map<K, string>, spell: K -> string)
    requires forall n :: n in k ==> n in blank && blank[n] == ""
    requires forall n :: n !in k ==> (n in blank <==> n in m) && (n in blank ==> blank[n] == m[n])
    ensures SafeSubstitute(t, blank, spell) == SafeSubstitute(WithoutHoles(t, k), m, spell)
  {
    if t != [] {
      EmptySlotsAreDeleted(t[1..], k, blank, m, spell);
      if !(t[0].Hole? && t[0].name in k) {
        var r := WithoutHoles(t, k);
        assert r == [t[0]] + WithoutHoles(t[1..], k);
        assert r[1..] == WithoutHoles(t[1..], k);
      }
    }
  }

  /** When every hole is mapped, no placeholder is left: the output is the literal pieces with the values in between. */
  lemma {:induction false} FilledHolesLeaveNoPlaceholder<K(!new)>(t: Template<K>, m: map<K, string>, spell: K -> string, spell2: K -> string)
    requires HoleNames(t) <= m.Keys
    ensures SafeSubstitute(t, m, spell) == SafeSubstitute(t, m, spell2)
  {
    if t != [] {
      FilledHolesLeaveNoPlaceholder(t[1..], m, spell, spell2);
    }
  }

  /**
    `str.format` of a template whose every field is supplied: each field
    is replaced by its value and every literal piece is copied.
   */
  function Format<K>(t: Template<K>, v: K -> string): (r: string)
  {
    if t == [] then "" else (match t[0] case Lit(s) => s case Hole(n) => v(n)) + Format(t[1..], v)
  }

  /** Formatting works piece by piece, like substitution. */
  lemma {:induction false} FormatAppend<K>(t: Template<K>, u: Template<K>, v: K -> string)
    ensures Format(t + u, v) == Format(t, v) + Format(u, v)
  {
    if t == [] {
      assert t + u == u;
    } else {
      assert (t + u)[1..] == t[1..] + u;
      FormatAppend(t[1..], u, v);
    }
  }

  /** With every field supplied, `format` and `safe_substitute` give the same text. */
  lemma {:induction false} FormatIsFullSubstitution<K>(t: Template<K>, v: K -> string, m: map<K, string>, spell: K -> string)
    requires forall n :: n in m && m[n] == v(n)
    ensures Format(t, v) == SafeSubstitute(t, m, spell)
  {
    if t != [] {
      FormatIsFullSubstitution(t[1..], v, m, spell);
    }
  }

  /** The value of a field occurs in the output, right after the formatted text before its hole. */
  lemma FormatShowsHole<K>(t: Template<K>, v: K -> string, j: nat)
    requires j < |t| && t[j].Hole?
    ensures OccursAt(v(t[j].name), Format(t, v), |Format(t[..j], v)|)
  {
    assert t == t[..j] + ([t[j]] + t[j + 1..]);
    FormatAppend(t[..j], [t[j]] + t[j + 1..], v);
    FormatAppend([t[j]], t[j + 1..], v);
    assert Format([t[j]], v) == v(t[j].name) by {
      assert [t[j]][1..] == [];
    }
  }

  /** The output starts with the formatted text of any prefix of the template. */
  lemma FormatPrefix<K>(t: Template<K>, v: K -> string, j: nat)
    requires j <= |t|
    ensures var before := Format(t[..j], v);
      |before| <= |Format(t, v)| && Format(t, v)[..|before|] == before
  {
    assert t == t[..j] + t[j..];
    FormatAppend(t[..j], t[j..], v);
  }
}
