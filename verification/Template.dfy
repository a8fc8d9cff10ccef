/** replaceTemplateVariables of internal/service/action_executor.go: one left-to-right pass over the leftmost matches
    of "{{", one or more characters other than '}', "}}". */
module Template {
  import opened Options

  // ---------- one match ----------

  /** The first '}' at or after i, or the length. */
  function FirstClose(s: string, i: nat): (j: nat)
    requires i <= |s|
    ensures i <= j <= |s|
    ensures forall k :: i <= k < j ==> s[k] != '}'
    ensures j < |s| ==> s[j] == '}'
    decreases |s| - i
  {
    if i == |s| || s[i] == '}' then i else FirstClose(s, i + 1)
  }

  /** Where the match that starts at i ends. A run of characters other than '}' can only be followed by "}}" at its
      very end, so there is at most one. */
  function MatchEnd(s: string, i: nat): Option<nat> {
    if i + 2 <= |s| && s[i] == '{' && s[i + 1] == '{' then
      var j := FirstClose(s, i + 2);
      if j > i + 2 && j + 1 < |s| && s[j + 1] == '}' then Some(j + 2) else None
    else None
  }

  /** The pattern itself, at i up to j. */
  ghost predicate IsMatch(s: string, i: nat, j: nat) {
    && i + 5 <= j <= |s| && s[i] == s[i + 1] == '{' && s[j - 2] == s[j - 1] == '}'
    && forall k :: i + 2 <= k < j - 2 ==> s[k] != '}'
  }

  lemma MatchEndIsRight(s: string, i: nat, j: nat)
    ensures IsMatch(s, i, j) <==> MatchEnd(s, i) == Some(j)
  {
    if i + 2 <= |s| {
      var close := FirstClose(s, i + 2);
      if IsMatch(s, i, j) { assert close == j - 2; }
    }
  }

  // ---------- the whole text ----------

  /** The text from i on, with every leftmost match replaced by what `render` makes of it. */
  function Replaced(s: string, i: nat, render: string -> string): string
    requires i <= |s|
    decreases |s| - i
  {
    match FirstMatch(s, i)
    case None => s[i..]
    case Some((a, b)) => s[i..a] + (render(s[a..b]) + Replaced(s, b, render))
  }

  /** The leftmost match at or after i. */
  function FirstMatch(s: string, i: nat): (m: Option<(nat, nat)>)
    requires i <= |s|
    ensures m.Some? ==> i <= m.value.0 < m.value.1 <= |s| && MatchEnd(s, m.value.0) == Some(m.value.1)
    ensures m.Some? ==> forall k :: i <= k < m.value.0 ==> MatchEnd(s, k) == None
    ensures m.None? ==> forall k :: i <= k ==> MatchEnd(s, k) == None
    decreases |s| - i
  {
    if i == |s| then None
    else if MatchEnd(s, i).Some? then Some((i, MatchEnd(s, i).value))
    else FirstMatch(s, i + 1)
  }

  lemma ReplacedAtMatch(s: string, i: nat, render: string -> string)
    requires i < |s| && MatchEnd(s, i).Some?
    ensures MatchEnd(s, i).value <= |s|
    ensures Replaced(s, i, render) == render(s[i..MatchEnd(s, i).value]) + Replaced(s, MatchEnd(s, i).value, render)
  {
    var tail := render(s[i..MatchEnd(s, i).value]) + Replaced(s, MatchEnd(s, i).value, render);
    assert s[i..i] + tail == tail;
  }

  lemma ReplacedAtLiteral(s: string, i: nat, render: string -> string)
    requires i < |s| && MatchEnd(s, i).None?
    ensures Replaced(s, i, render) == [s[i]] + Replaced(s, i + 1, render)
  {
    match FirstMatch(s, i + 1)
    case None => assert s[i..] == [s[i]] + s[i + 1..];
    case Some((a, b)) =>
      var tail := render(s[a..b]) + Replaced(s, b, render);
      assert s[i..a] == [s[i]] + s[i + 1..a];
      assert s[i..a] + tail == [s[i]] + (s[i + 1..a] + tail);
  }

  /** One pass from left to right: what a match was replaced by is never looked at again. */
  method ReplaceAllStringFunc(s: string, render: string -> string) returns (result: string)
    ensures result == Replaced(s, 0, render)
  {
    hide Replaced, MatchEnd;
    result := "";
    var i := 0;
    while i < |s|
      invariant 0 <= i <= |s|
      invariant result + Replaced(s, i, render) == Replaced(s, 0, render)
    {
      MatchBounds(s, i);
      if MatchEnd(s, i).Some? {
        var j := MatchEnd(s, i).value;
        ReplacedAtMatch(s, i, render);
        assert result + (render(s[i..j]) + Replaced(s, j, render)) == result + render(s[i..j]) + Replaced(s, j, render);
        result := result + render(s[i..j]);
        i := j;
      } else {
        ReplacedAtLiteral(s, i, render);
        assert result + ([s[i]] + Replaced(s, i + 1, render)) == result + [s[i]] + Replaced(s, i + 1, render);
        result := result + [s[i]];
        i := i + 1;
      }
    }
    assert Replaced(s, |s|, render) == "" by { ReplacedAtEnd(s, render); }
  }

  lemma MatchBounds(s: string, i: nat)
    ensures MatchEnd(s, i).Some? ==> i < MatchEnd(s, i).value <= |s|
  {
  }

  lemma ReplacedAtEnd(s: string, render: string -> string)
    ensures Replaced(s, |s|, render) == ""
  {
  }

  // ---------- what the pass means ----------

  /** The literals and the matches, put back together, are the template: whatever is kept verbatim is kept in place. */
  lemma {:induction false} UnrenderedIsVerbatim(s: string, i: nat, render: string -> string)
    requires i <= |s| && forall a: nat, b: nat :: i <= a && IsMatch(s, a, b) ==> render(s[a..b]) == s[a..b]
    ensures Replaced(s, i, render) == s[i..]
    decreases |s| - i
  {
    match FirstMatch(s, i)
    case None =>
    case Some((a, b)) =>
      MatchEndIsRight(s, a, b);
      UnrenderedIsVerbatim(s, b, render);
      assert s[a..b] + s[b..] == s[a..];
      assert s[i..a] + s[a..] == s[i..];
  }

  /** Which cuts the pass makes, said without saying how it finds them: matches, each behind the one before, and no
      match starts outside them. */
  ghost predicate LeftmostCuts(s: string, i: nat, cuts: seq<(nat, nat)>)
    requires i <= |s|
    decreases |cuts|
  {
    if cuts == [] then forall k, l :: i <= k ==> !IsMatch(s, k, l)
    else
      var (a, b) := cuts[0];
      && i <= a && IsMatch(s, a, b)
      && (forall k, l :: i <= k < a ==> !IsMatch(s, k, l))
      && LeftmostCuts(s, b, cuts[1..])
  }

  function Stitched(s: string, i: nat, cuts: seq<(nat, nat)>, render: string -> string): string
    requires i <= |s|
    decreases |cuts|
  {
    if cuts == [] then s[i..]
    else
      var (a, b) := cuts[0];
      if i <= a <= b <= |s| then s[i..a] + (render(s[a..b]) + Stitched(s, b, cuts[1..], render)) else ""
  }

  /** The result is the template with its leftmost cuts replaced, for any such cuts; so there is one way only. */
  lemma {:induction false} ReplacedIsLeftmost(s: string, i: nat, cuts: seq<(nat, nat)>, render: string -> string)
    requires i <= |s| && LeftmostCuts(s, i, cuts)
    ensures Replaced(s, i, render) == Stitched(s, i, cuts, render)
    decreases |cuts|
  {
    var first := FirstMatch(s, i);
    if first.Some? { MatchEndIsRight(s, first.value.0, first.value.1); }
    if cuts != [] {
      var (a, b) := cuts[0];
      MatchEndIsRight(s, a, b);
      assert first == Some((a, b));
      ReplacedIsLeftmost(s, b, cuts[1..], render);
    }
  }

  /** And there always is one. */
  lemma {:induction false} LeftmostCutsExist(s: string, i: nat) returns (cuts: seq<(nat, nat)>)
    requires i <= |s|
    ensures LeftmostCuts(s, i, cuts)
    decreases |s| - i
  {
    match FirstMatch(s, i)
    case None =>
      forall k, l | i <= k ensures !IsMatch(s, k, l) { MatchEndIsRight(s, k, l); }
      cuts := [];
    case Some((a, b)) =>
      var rest := LeftmostCutsExist(s, b);
      MatchEndIsRight(s, a, b);
      forall k, l | i <= k < a ensures !IsMatch(s, k, l) { MatchEndIsRight(s, k, l); }
      cuts := [(a, b)] + rest;
      assert cuts[1..] == rest;
  }

  /** Substituted text is not rescanned: a template that is one placeholder becomes its value, be that value a
      placeholder again. */
  lemma ValueIsNotRescanned(name: string, render: string -> string)
    requires name != "" && '}' !in name
    ensures Replaced("{{" + name + "}}", 0, render) == render("{{" + name + "}}")
  {
    var s := "{{" + name + "}}";
    assert forall k :: 2 <= k < |s| - 2 ==> s[k] == name[k - 2];
    MatchEndIsRight(s, 0, |s|);
    ReplacedAtMatch(s, 0, render);
    assert s[0..|s|] == s;
    ReplacedAtEnd(s, render);
  }
}
