/**
 Track tags, their normal form and the removal of release packaging labels (src/tags.rs).
 Everything here is about ASCII text.
 */
module Tags {
  import opened Text
  import opened Chains

  datatype TrackTags = TrackTags(title: string, artist: string, album: string, duration: int)
  {
    function Cleaned(): TrackTags { this.(title := Clean(title), album := Clean(album)) }

    function Normalized(): TrackTags {
      TrackTags(Normalize(title), Normalize(artist), Normalize(album), duration)
    }
  }

  function Normalize(value: string): string { Lower(Join(Words(value))) }

  // ---------------------------------------------------------------------------
  // Packaging labels
  // ---------------------------------------------------------------------------

  predicate Digits(w: string) { forall i :: 0 <= i < |w| ==> IsDigit(w[i]) }

  predicate IsYear(w: string) { |w| == 4 && Digits(w) }

  predicate IsRemaster(w: string) { w == "remaster" || w == "remastered" }

  predicate IsEdition(w: string) { w == "deluxe" || w == "expanded" }

  predicate IsOrdinal(w: string) {
    exists n :: 1 <= n <= 3 && n <= |w| && Digits(w[..n]) && w[n..] in ["", "st", "nd", "rd", "th"]
  }

  /** The label grammar, word by word. */
  predicate IsPackaging(words: seq<string>) {
    match |words|
    case 1 => IsRemaster(words[0]) || IsEdition(words[0])
    case 2 =>
      || (IsYear(words[0]) && IsRemaster(words[1]))
      || (IsRemaster(words[0]) && IsYear(words[1]))
      || (IsEdition(words[0]) && words[1] == "edition")
      || (IsOrdinal(words[0]) && words[1] == "anniversary")
    case 3 =>
      || (IsYear(words[0]) && IsRemaster(words[1]) && IsYear(words[2]))
      || (IsOrdinal(words[0]) && words[1] == "anniversary" && words[2] == "edition")
    case _ => false
  }

  /** What may stand between two brackets: no outer white space, any case. */
  predicate IsLabel(s: string) { s != "" && Trimmed(s) && IsPackaging(Words(Lower(s))) }

  predicate IsGroup(g: string) {
    |g| >= 2 && IsOpen(g[0]) && IsClose(g[|g| - 1]) && IsLabel(g[1..|g| - 1])
  }

  function LastOpen(s: string): (i: int)
    ensures -1 <= i < |s|
    ensures i >= 0 ==> IsOpen(s[i])
    ensures forall j :: i < j < |s| ==> !IsOpen(s[j])
  {
    if s == "" then -1 else if IsOpen(s[|s| - 1]) then |s| - 1 else LastOpen(s[..|s| - 1])
  }

  /** Replace a trailing label and the white space around it by nothing. */
  function StripOnce(s: string): string {
    var t := TrimEnd(s);
    var i := LastOpen(t);
    if i >= 0 && IsGroup(t[i..]) then TrimEnd(t[..i]) else s
  }

  lemma StripShortens(s: string)
    requires Trimmed(s)
    ensures Trimmed(StripOnce(s)) && StripOnce(s) <= s
    ensures StripOnce(s) != s ==> |StripOnce(s)| < |s|
  {
    hide IsGroup;
    assert TrimEnd(s) == s;
    var i := LastOpen(s);
    if i >= 0 && IsGroup(s[i..]) {
      TrimEndShape(s[..i]);
      assert StripOnce(s) == s[..|StripOnce(s)|];
    }
  }

  function Fix(s: string): (r: string)
    requires Trimmed(s)
    ensures Trimmed(r)
    decreases |s|
  {
    StripShortens(s);
    TrimShape(StripOnce(s));
    var cleaned := Trim(StripOnce(s));
    if cleaned == s then s else Fix(cleaned)
  }

  function Clean(value: string): string {
    TrimShape(value);
    if Trim(value) == "" then value else Fix(Trim(value))
  }

  method CleanMetadataValue(value: string) returns (r: string)
    ensures r == Clean(value)
  {
    if Trim(value) == "" {
      return value;
    }
    TrimShape(value);
    r := Trim(value);
    while true
      invariant Trimmed(r) && Fix(r) == Clean(value)
      decreases |r|
    {
      StripShortens(r);
      TrimShape(StripOnce(r));
      var cleaned := Trim(StripOnce(r));
      if cleaned == r {
        return r;
      }
      r := cleaned;
    }
  }

  // ---------------------------------------------------------------------------
  // Cleaning removes exactly the maximal chain of labels
  // ---------------------------------------------------------------------------

  function SpaceAt(s: string): nat -> bool { (k: nat) => k < |s| && IsSpace(s[k]) }

  function GroupAt(s: string): (nat, nat) -> bool { (a: nat, b: nat) => a < b <= |s| && IsGroup(s[a..b]) }

  lemma {:induction false} WordsCoverText(s: string)
    requires forall w, k :: w in Words(s) && 0 <= k < |w| ==> IsAlphanumeric(w[k])
    ensures forall i :: 0 <= i < |s| ==> IsSpace(s[i]) || IsAlphanumeric(s[i])
    decreases |s|
  {
    TrimStartShape(s);
    var t := TrimStart(s);
    var lead := |s| - |t|;
    if t == "" {
    } else {
      var run, rest := t[..RunLength(t)], t[RunLength(t)..];
      assert Words(s) == [run] + Words(rest);
      assert run in Words(s);
      forall w, k | w in Words(rest) && 0 <= k < |w| ensures IsAlphanumeric(w[k]) {
        assert w in Words(s);
      }
      WordsCoverText(rest);
      forall i | 0 <= i < |s| ensures IsSpace(s[i]) || IsAlphanumeric(s[i]) {
        if i < lead {
          assert s[i] == s[..lead][i];
        } else if i < lead + |run| {
          assert s[i] == run[i - lead];
        } else {
          assert s[i] == rest[i - lead - |run|];
        }
      }
    }
  }

  lemma PackagingIsAlphanumeric(words: seq<string>)
    requires IsPackaging(words)
    ensures forall w, k :: w in words && 0 <= k < |w| ==> IsAlphanumeric(w[k])
  {
    forall w, k | w in words && 0 <= k < |w| ensures IsAlphanumeric(w[k]) {
      if IsYear(w) {
        assert IsDigit(w[k]);
      } else if IsOrdinal(w) {
        var n :| 1 <= n <= 3 && n <= |w| && Digits(w[..n]) && w[n..] in ["", "st", "nd", "rd", "th"];
        if k < n {
          assert IsDigit(w[..n][k]);
        } else {
          assert w[k] == w[n..][k - n];
        }
      }
    }
  }

  lemma LabelHasNoBrackets(s: string)
    requires IsLabel(s)
    ensures forall i :: 0 <= i < |s| ==> IsSpace(s[i]) || IsAlphanumeric(s[i])
  {
    PackagingIsAlphanumeric(Words(Lower(s)));
    WordsCoverText(Lower(s));
    forall i | 0 <= i < |s| ensures IsSpace(s[i]) || IsAlphanumeric(s[i]) {
      LowerAt(s, i);
      assert IsSpace(Lower(s)[i]) || IsAlphanumeric(Lower(s)[i]);
    }
  }

  lemma GroupParts(s: string, a: nat, b: nat)
    requires a < b <= |s| && IsGroup(s[a..b])
    ensures a + 2 <= b && IsOpen(s[a]) && IsClose(s[b - 1]) && IsLabel(s[a + 1..b - 1])
  {
    hide IsLabel;
    SliceOfSlice(s, a, b, 1, b - a - 1);
    assert s[a..b][b - a - 1] == s[b - 1];
  }

  lemma GroupOpensOnce(s: string, a: nat, b: nat)
    requires a < b <= |s| && IsGroup(s[a..b])
    ensures a + 2 <= b && IsOpen(s[a]) && IsClose(s[b - 1])
    ensures forall k :: a < k < b ==> !IsOpen(s[k])
  {
    GroupParts(s, a, b);
    var inner := s[a + 1..b - 1];
    LabelHasNoBrackets(inner);
    hide IsGroup, IsLabel;
    forall k | a < k < b ensures !IsOpen(s[k]) {
      if k < b - 1 {
        assert s[k] == inner[k - a - 1];
      }
    }
  }

  lemma GroupEnds(s: string, a: nat, b: nat)
    requires GroupAt(s)(a, b)
    ensures a < b <= |s| && !SpaceAt(s)(b - 1) && IsOpen(s[a])
    ensures forall k :: a < k < b ==> !IsOpen(s[k])
  {
    hide IsLabel;
    GroupOpensOnce(s, a, b);
  }

  lemma GroupsAreBracketed(s: string)
    ensures Bracketed(SpaceAt(s), GroupAt(s))
  {
    hide IsLabel;
    var space, group := SpaceAt(s), GroupAt(s);
    forall a: nat, b: nat | group(a, b) ensures a < b && !space(b - 1) {
      GroupEnds(s, a, b);
    }
    forall a: nat, c: nat, b: nat | group(a, b) && group(c, b) ensures a == c {
      GroupsBeginOnce(s, a, c, b);
    }
  }

  lemma GroupsBeginOnce(s: string, a: nat, c: nat, b: nat)
    requires GroupAt(s)(a, b) && GroupAt(s)(c, b)
    ensures a == c
  {
    hide IsLabel;
    GroupEnds(s, a, b);
    GroupEnds(s, c, b);
  }

  /** `r` is `s` without a trailing chain of labels, and no shorter prefix is. */
  ghost predicate IsCore(s: string, r: string) {
    r <= s && Core(SpaceAt(s), GroupAt(s), |s|, |r|)
  }

  lemma TrimmedHead(s: string, i: nat)
    requires i <= |s|
    ensures var m := |TrimEnd(s[..i])|;
      && TrimEnd(s[..i]) <= s && m <= i
      && Spaces(SpaceAt(s), m, i) && (m > 0 ==> !SpaceAt(s)(m - 1))
  {
    var head := s[..i];
    TrimEndShape(head);
    forall k: nat | |TrimEnd(head)| <= k < i ensures SpaceAt(s)(k) {
      assert head[|TrimEnd(head)|..][k - |TrimEnd(head)|] == s[k];
    }
  }

  lemma LastGroup(s: string, a: nat)
    requires GroupAt(s)(a, |s|)
    ensures LastOpen(s) == a && IsGroup(s[LastOpen(s)..])
  {
    hide IsLabel;
    GroupEnds(s, a, |s|);
    assert s[a..|s|] == s[a..];
  }

  /** Where `StripOnce` cuts a trimmed text. */
  lemma StripAt(s: string) returns (i: int)
    requires Trimmed(s)
    ensures StripOnce(s) <= s && i < |s|
    ensures if i >= 0 then
        GroupAt(s)(i, |s|) && StripOnce(s) == TrimEnd(s[..i])
      else
        StripOnce(s) == s && forall a: nat :: !GroupAt(s)(a, |s|)
  {
    hide IsLabel;
    StripShortens(s);
    assert TrimEnd(s) == s;
    i := LastOpen(s);
    if i >= 0 && IsGroup(s[i..]) {
      assert s[i..|s|] == s[i..];
    } else {
      forall a: nat ensures !GroupAt(s)(a, |s|) {
        if GroupAt(s)(a, |s|) {
          LastGroup(s, a);
        }
      }
      i := -1;
    }
  }

  lemma {:induction false} FixIsCore(s: string)
    requires Trimmed(s)
    ensures IsCore(s, Fix(s))
    decreases |s|
  {
    hide IsGroup, IsLabel;
    var i := StripAt(s);
    var c := StripOnce(s);
    StripShortens(s);
    TrimShape(c);
    if i < 0 {
      CoreOfBare(SpaceAt(s), GroupAt(s), |s|);
    } else {
      TrimmedHead(s, i);
      FixIsCore(c);
      CoreOfPrefix(s, c, |Fix(c)|);
      GroupsAreBracketed(s);
      CoreOfStripped(SpaceAt(s), GroupAt(s), |s|, i, |c|, |Fix(c)|);
      assert Fix(s) == Fix(c);
    }
  }

  lemma CoreOfPrefix(s: string, c: string, r: nat)
    requires c <= s && Core(SpaceAt(c), GroupAt(c), |c|, r)
    ensures Core(SpaceAt(s), GroupAt(s), |c|, r)
  {
    forall a: nat, b: nat | a < b <= |c| ensures GroupAt(s)(a, b) == GroupAt(c)(a, b) {
      assert s[a..b] == c[a..b];
    }
    ChainAgrees(SpaceAt(c), GroupAt(c), SpaceAt(s), GroupAt(s), r, |c|);
    forall k: nat | Chain(SpaceAt(s), GroupAt(s), k, |c|) ensures r <= k {
      ChainAgrees(SpaceAt(s), GroupAt(s), SpaceAt(c), GroupAt(c), k, |c|);
    }
  }

  lemma CoreIsUnique(s: string, r: string, r': string)
    requires IsCore(s, r) && IsCore(s, r')
    ensures r == r'
  {
    assert |r| == |r'|;
  }

  /** Cleaning keeps exactly the core of a text that is not blank, and a blank text as it is. */
  lemma CleanIsCore(value: string, r: string)
    ensures r == Clean(value) <==> if Blank(value) then r == value else Trimmed(r) && IsCore(Trim(value), r)
  {
    TrimShape(value);
    if !Blank(value) {
      FixIsCore(Trim(value));
      if IsCore(Trim(value), r) {
        CoreIsUnique(Trim(value), r, Clean(value));
      }
    }
  }

  lemma {:induction false} FixIsFixed(s: string)
    requires Trimmed(s)
    ensures Fix(Fix(s)) == Fix(s)
    decreases |s|
  {
    StripShortens(s);
    TrimShape(StripOnce(s));
    if Trim(StripOnce(s)) != s {
      FixIsFixed(Trim(StripOnce(s)));
    }
  }

  lemma CleanIsIdempotent(value: string)
    ensures Clean(Clean(value)) == Clean(value)
  {
    TrimShape(value);
    if !Blank(value) {
      FixIsFixed(Trim(value));
      TrimShape(Clean(value));
    }
  }

  // ---------------------------------------------------------------------------
  // Cleaning commutes with normalization
  // ---------------------------------------------------------------------------

  lemma NormalizeIsSquash(value: string)
    ensures Normalize(value) == Trim(Squash(value)) == Squash(Trim(value))
  {
    JoinedWords(value);
    SquashTrim(value);
  }

  lemma {:induction false} SquashKeepsWords(s: string)
    ensures Words(Squash(s)) == Words(Lower(s))
    decreases |s|
  {
    if s != "" && IsSpace(s[0]) {
      SquashKeepsWords(s[1..]);
      WordsSkipSpace(Lower(s));
      if |s| == 1 || !IsSpace(s[1]) {
        assert (" " + Squash(s[1..]))[1..] == Squash(s[1..]);
        WordsSkipSpace(Squash(s));
      }
    } else if s != "" {
      var n := RunLength(s);
      var run, rest := s[..n], s[n..];
      SquashKeepsWords(rest);
      assert s == run + rest;
      SquashJoins(run, rest);
      SquashSolid(run);
      LowerJoins(run, rest);
      LowerIsSolid(run);
      SquashEnds(rest);
      if rest != "" { LowerAt(rest, 0); }
      WordsOfRun(Lower(run), Squash(rest));
      WordsOfRun(Lower(run), Lower(rest));
    }
  }

  lemma WordsSkipSpace(s: string)
    requires s != "" && IsSpace(s[0])
    ensures Words(s) == Words(s[1..])
  {
  }

  lemma LowerIsSolid(s: string)
    requires Solid(s)
    ensures Solid(Lower(s)) && |Lower(s)| == |s|
  {
    forall i | 0 <= i < |s| ensures |Lower(s)| == |s| && !IsSpace(Lower(s)[i]) {
      LowerAt(s, i);
    }
    if s == "" {
      assert Lower(s) == "";
    } else {
      LowerAt(s, 0);
    }
  }

  lemma RunOf(run: string, rest: string)
    requires Solid(run) && (rest == "" || IsSpace(rest[0]))
    ensures RunLength(run + rest) == |run|
  {
    if run == "" {
      assert run + rest == rest;
    } else {
      assert (run + rest)[1..] == run[1..] + rest;
      RunOf(run[1..], rest);
    }
  }

  lemma WordsOfRun(run: string, rest: string)
    requires run != "" && Solid(run) && (rest == "" || IsSpace(rest[0]))
    ensures Words(run + rest) == [run] + Words(rest)
  {
    RunOf(run, rest);
    assert (run + rest)[..|run|] == run && (run + rest)[|run|..] == rest;
  }

  lemma SquashKeepsLabels(s: string)
    ensures IsLabel(Squash(s)) <==> IsLabel(s)
  {
    SquashEnds(s);
    SquashKeepsWords(s);
    SquashKeepsWords(Squash(s));
    SquashTwice(s);
  }

  lemma SquashKeepsGroups(g: string)
    requires |g| >= 2 && IsOpen(g[0])
    ensures IsGroup(Squash(g)) <==> IsGroup(g)
  {
    hide IsLabel;
    var inner, last := g[1..|g| - 1], g[|g| - 1];
    assert g == [g[0]] + inner + [last];
    SquashEnds(g);
    SquashKeepsLabels(inner);
    if IsClose(last) {
      SquashBracketed(g[0], inner, last);
    }
  }

  lemma SquashBracketed(open: char, inner: string, close: char)
    requires IsOpen(open) && IsClose(close)
    ensures Squash([open] + inner + [close]) == [open] + Squash(inner) + [close]
  {
    SquashJoins([open] + inner, [close]);
    SquashJoins([open], inner);
    assert Squash([open]) == [open] && Squash([close]) == [close];
  }

  /** The last opening bracket moves along with the text before it. */
  lemma SquashKeepsLastOpen(s: string)
    ensures var i := LastOpen(s);
      if i < 0 then LastOpen(Squash(s)) < 0
      else LastOpen(Squash(s)) == |Squash(s[..i])| && Squash(s) == Squash(s[..i]) + Squash(s[i..])
  {
    hide LastOpen, IsGroup;
    var i := LastOpen(s);
    if i < 0 {
      SquashOpensNone(s);
    } else {
      var tail := s[i + 1..];
      assert s == s[..i] + s[i..] && s[i..] == [s[i]] + tail;
      SquashJoins(s[..i], s[i..]);
      SquashJoins([s[i]], tail);
      SquashOpensNone(tail);
      assert Squash([s[i]]) == [s[i]];
      LastOpenIs(Squash(s[..i]), s[i], Squash(tail));
    }
  }

  lemma SquashOpensNone(s: string)
    requires forall j :: 0 <= j < |s| ==> !IsOpen(s[j])
    ensures forall j :: 0 <= j < |Squash(s)| ==> !IsOpen(Squash(s)[j])
    ensures LastOpen(Squash(s)) < 0
  {
    if s != "" {
      SquashOpensNone(s[1..]);
    }
  }

  lemma {:induction false} LastOpenIs(a: string, c: char, b: string)
    requires IsOpen(c) && forall j :: 0 <= j < |b| ==> !IsOpen(b[j])
    ensures LastOpen(a + ([c] + b)) == |a|
    decreases |b|
  {
    if b == "" {
      assert (a + [c])[|a|] == c && a + ([c] + b) == a + [c];
    } else {
      var s, rest := a + ([c] + b), b[..|b| - 1];
      assert s[|s| - 1] == b[|b| - 1];
      assert s[..|s| - 1] == a + ([c] + rest);
      LastOpenIs(a, c, rest);
    }
  }

  lemma StripCommutes(s: string)
    requires Trimmed(s)
    ensures Trimmed(Squash(s)) && StripOnce(Squash(s)) == Squash(StripOnce(s))
    ensures StripOnce(Squash(s)) == Squash(s) <==> StripOnce(s) == s
  {
    hide IsLabel;
    SquashEnds(s);
    assert TrimEnd(s) == s && TrimEnd(Squash(s)) == Squash(s);
    SquashKeepsLastOpen(s);
    StripShortens(s);
    var i := LastOpen(s);
    if i >= 0 {
      var head, g := Squash(s[..i]), Squash(s[i..]);
      assert Squash(s)[..|head|] == head && Squash(s)[|head|..] == g;
      if |s[i..]| >= 2 {
        SquashKeepsGroups(s[i..]);
      } else {
        assert s[i..] == [s[i]];
        assert g == [s[i]];
      }
      SquashTrimEnd(s[..i]);
      if IsGroup(s[i..]) {
        TrimEndShape(s[..i]);
        TrimEndShape(head);
      }
    }
  }

  lemma {:induction false} FixCommutes(s: string)
    requires Trimmed(s)
    ensures Trimmed(Squash(s)) && Fix(Squash(s)) == Squash(Fix(s))
    decreases |s|
  {
    hide IsGroup;
    StripCommutes(s);
    StripShortens(s);
    StripShortens(Squash(s));
    var c := StripOnce(s);
    TrimShape(c);
    TrimShape(Squash(c));
    if c != s {
      FixCommutes(c);
    }
  }

  lemma CleanCommutesWithNormalize(value: string)
    ensures Clean(Normalize(value)) == Normalize(Clean(value))
  {
    NormalizeIsSquash(value);
    TrimShape(value);
    TrimShape(Normalize(value));
    SquashEnds(Trim(value));
    if Blank(value) {
      assert Trim(value) == "";
    } else {
      FixCommutes(Trim(value));
      NormalizeIsSquash(Clean(value));
      TrimShape(Clean(value));
    }
  }

  /** Equal normal forms stay equal when both texts are cleaned. */
  lemma CleanKeepsNormalEquality(a: string, b: string)
    requires Normalize(a) == Normalize(b)
    ensures Normalize(Clean(a)) == Normalize(Clean(b))
  {
    CleanCommutesWithNormalize(a);
    CleanCommutesWithNormalize(b);
  }
}
