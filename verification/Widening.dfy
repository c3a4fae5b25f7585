/** Why the clean fallback only widens what is accepted (src/lrclib.rs, src/tags.rs). */
module Widening {
  import opened Basics
  import opened Text
  import opened Chains
  import opened Tags
  import opened Matcher

  predicate InVocabulary(w: string) {
    IsRemaster(w) || IsEdition(w) || IsYear(w) || IsOrdinal(w) || w == "edition" || w == "anniversary"
  }

  lemma PackagingUsesVocabulary(words: seq<string>)
    requires IsPackaging(words)
    ensures forall w :: w in words ==> InVocabulary(w)
  {
  }

  lemma OrdinalStartsWithDigit(w: string)
    requires IsYear(w) || IsOrdinal(w)
    ensures w != "" && IsDigit(w[0]) && w[|w| - 1] != 'o'
  {
    if IsYear(w) {
      assert IsDigit(w[0]) && IsDigit(w[|w| - 1]);
    } else {
      var n :| 1 <= n <= 3 && n <= |w| && Digits(w[..n]) && w[n..] in ["", "st", "nd", "rd", "th"];
      assert w[0] == w[..n][0] && IsDigit(w[..n][0]);
      if w[n..] == "" {
        assert IsDigit(w[..n][n - 1]);
      } else {
        assert w[|w| - 1] == w[n..][|w| - n - 1];
      }
    }
  }

  /** No packaging word names a recording variant, and none ends like the first word of "radio edit". */
  lemma VocabularyHasNoContext(w: string)
    requires InVocabulary(w)
    ensures w !in CONTEXT_WORDS && w != "" && w[|w| - 1] != 'o'
  {
    if IsYear(w) || IsOrdinal(w) {
      OrdinalStartsWithDigit(w);
      forall c | c in CONTEXT_WORDS ensures c != "" && !IsDigit(c[0]) {
      }
    }
  }

  ghost predicate Wordy(s: string) { forall k :: 0 <= k < |s| ==> IsSpace(s[k]) || IsAlphanumeric(s[k]) }

  lemma TokenShifts(s: string, n: nat, i: nat, j: nat)
    requires Token(s, i, j) && n <= i
    ensures Token(s[n..], i - n, j - n) && s[n..][i - n..j - n] == s[i..j]
  {
  }

  lemma FirstWord(s: string)
    requires s != "" && !IsSpace(s[0]) && Wordy(s)
    ensures var n := RunLength(s); 0 < n <= |s| && Token(s, 0, n) && Words(s) == [s[..n]] + Words(s[n..])
    ensures Wordy(s[RunLength(s)..])
  {
    RunIsToken(s);
    assert TrimStart(s) == s;
  }

  lemma {:induction false} TokenIsWord(s: string, i: nat, j: nat)
    requires Token(s, i, j) && Wordy(s)
    ensures s[i..j] in Words(s)
    decreases |s|
  {
    var n := FirstPart(s, i, j);
    if n > 0 {
      assert s[n..][i - n..j - n] == s[i..j] by { TokenShifts(s, n, i, j); }
      TokenIsWord(s[n..], i - n, j - n);
    }
  }

  /** Either the token is the first word, or it is a token of what follows the first `n` characters. */
  lemma FirstPart(s: string, i: nat, j: nat) returns (n: nat)
    requires Token(s, i, j) && Wordy(s)
    ensures n == 0 ==> s[i..j] in Words(s)
    ensures n > 0 ==> n <= i && Token(s[n..], i - n, j - n) && Wordy(s[n..])
    ensures n > 0 ==> forall w :: w in Words(s[n..]) ==> w in Words(s)
  {
    if IsSpace(s[0]) {
      n := 1;
      WordsSkipSpace(s);
      TokenShifts(s, 1, i, j);
    } else {
      n := RunLength(s);
      FirstWord(s);
      if i < n {
        TokensMeet(s, i, j, n);
        n := 0;
      } else {
        TokenShifts(s, n, i, j);
      }
    }
  }

  lemma TokensMeet(s: string, i: nat, j: nat, n: nat)
    requires Token(s, i, j) && Token(s, 0, n) && i < n
    ensures i == 0 && j == n
  {
  }

  lemma RunIsToken(s: string)
    requires s != "" && !IsSpace(s[0]) && Wordy(s)
    ensures Token(s, 0, RunLength(s))
  {
    var n := RunLength(s);
    forall k | 0 <= k < n ensures IsAlphanumeric(s[k]) {
      assert s[k] == s[..n][k];
    }
  }

  ghost predicate Lowered(s: string) { forall k :: 0 <= k < |s| ==> LowerChar(s[k]) == s[k] }

  lemma LowerIsFixed(s: string)
    requires Lowered(s)
    ensures Lower(s) == s
  {
    if s != "" {
      LowerIsFixed(s[1..]);
    }
  }

  lemma SquashIsLower(s: string)
    ensures Lowered(Squash(s))
  {
    if s != "" {
      SquashIsLower(s[1..]);
    }
  }

  ghost predicate LowerChain(v: string) {
    Chain(SpaceAt(v), GroupAt(v), 0, |v|) && Lowered(v)
  }

  lemma TokenOfLabel(inner: string, i: nat, j: nat)
    requires IsLabel(inner) && Token(inner, i, j) && Lowered(inner)
    ensures InVocabulary(inner[i..j])
  {
    LabelHasNoBrackets(inner);
    LowerIsFixed(inner);
    TokenIsWord(inner, i, j);
    PackagingUsesVocabulary(Words(inner));
  }

  lemma TokenOfGroup(v: string, a: nat, b: nat, i: nat, j: nat)
    requires a + 2 <= b <= |v| && IsOpen(v[a]) && IsClose(v[b - 1])
    requires Token(v, i, j) && a <= i < b
    ensures a < i && j < b && Token(v[a + 1..b - 1], i - a - 1, j - a - 1)
    ensures v[a + 1..b - 1][i - a - 1..j - a - 1] == v[i..j]
  {
    assert a < i;
    assert !IsAlphanumeric(v[b - 1]);
    var inner := v[a + 1..b - 1];
    forall k | i - a - 1 <= k < j - a - 1 ensures IsAlphanumeric(inner[k]) {
      assert inner[k] == v[k + a + 1];
    }
    SliceOfSlice(v, a + 1, b - 1, i - a - 1, j - a - 1);
  }

  /** The label around a solid position of a chain. */
  lemma LabelAround(v: string, k: nat) returns (a: nat, b: nat)
    requires LowerChain(v) && k < |v| && !IsSpace(v[k])
    ensures a + 2 <= b <= |v| && a <= k < b && IsOpen(v[a]) && IsClose(v[b - 1]) && IsLabel(v[a + 1..b - 1])
    ensures Lowered(v[a + 1..b - 1])
  {
    a, b := ChainCovers(SpaceAt(v), GroupAt(v), 0, |v|, k);
    GroupParts(v, a, b);
    var inner := v[a + 1..b - 1];
    forall c | 0 <= c < |inner| ensures LowerChar(inner[c]) == inner[c] {
      assert inner[c] == v[a + 1 + c];
    }
  }

  /** Every run of letters and digits in a chain of labels is a packaging word. */
  lemma TokenOfChain(v: string, i: nat, j: nat)
    requires LowerChain(v) && Token(v, i, j)
    ensures InVocabulary(v[i..j])
  {
    var a, b := LabelAround(v, i);
    TokenOfGroup(v, a, b, i, j);
    TokenOfLabel(v[a + 1..b - 1], i - a - 1, j - a - 1);
  }

  lemma CharOfGroup(v: string, a: nat, b: nat, k: nat)
    requires a + 2 <= b <= |v| && IsOpen(v[a]) && IsClose(v[b - 1]) && a <= k < b
    requires Wordy(v[a + 1..b - 1])
    ensures v[k] != '-'
  {
    if a < k < b - 1 {
      assert v[a + 1..b - 1][k - a - 1] == v[k];
    }
  }

  lemma CharOfChain(v: string, k: nat)
    requires LowerChain(v) && k < |v|
    ensures v[k] != '-'
  {
    if !IsSpace(v[k]) {
      var a, b := LabelAround(v, k);
      LabelHasNoBrackets(v[a + 1..b - 1]);
      CharOfGroup(v, a, b, k);
    }
  }

  lemma RunBefore(s: string, j: nat) returns (i: nat)
    requires 0 < j <= |s| && IsAlphanumeric(s[j - 1]) && (j == |s| || !IsAlphanumeric(s[j]))
    ensures Token(s, i, j)
  {
    i := j - 1;
    while i > 0 && IsAlphanumeric(s[i - 1])
      invariant i < j && forall k :: i <= k < j ==> IsAlphanumeric(s[k])
    {
      i := i - 1;
    }
  }

  lemma ChainHasNoContext(v: string)
    requires LowerChain(v)
    ensures forall i: nat, j: nat :: i < j <= |v| && Token(v, i, j) ==> v[i..j] !in CONTEXT_WORDS
    ensures !Contains(v, "re-recorded")
    ensures !Contains(v, "radio edit")
  {
    forall i: nat, j: nat | i < j <= |v| && Token(v, i, j) ensures v[i..j] !in CONTEXT_WORDS {
      TokenOfChain(v, i, j);
      VocabularyHasNoContext(v[i..j]);
    }
    forall i: nat | i + |"re-recorded"| <= |v| ensures !PartAt(v, "re-recorded", i) {
      CharOfChain(v, i + 2);
      assert "re-recorded"[2] == '-';
      assert v[i..i + |"re-recorded"|][2] == v[i + 2];
    }
    forall i: nat | i + |"radio edit"| <= |v| ensures !PartAt(v, "radio edit", i) {
      if PartAt(v, "radio edit", i) {
        var part := v[i..i + |"radio edit"|];
        assert part[4] == v[i + 4] && part[5] == v[i + 5];
        var start := RunBefore(v, i + 5);
        TokenOfChain(v, start, i + 5);
        VocabularyHasNoContext(v[start..i + 5]);
      }
    }
  }

  /** An album that cleaning empties names no recording variant. */
  lemma EmptiedAlbumHasNoContext(album: string)
    requires Normalize(album) != "" && Normalize(Clean(album)) == ""
    ensures !HasRecordingContext(album)
  {
    var v := Normalize(album);
    CleanCommutesWithNormalize(album);
    NormalizeIsSquash(album);
    TrimShape(Squash(album));
    TrimShape(v);
    CleanIsCore(v, "");
    SquashIsLower(Trim(album));
    ChainHasNoContext(v);
  }

  /** The fallback accepts every record that the exact comparison accepts. */
  lemma FallbackWidens(tags: TrackTags, record: Record)
    requires Accepts(tags, record, false, false)
    ensures Accepts(tags, record, true, true)
  {
    CleanKeepsNormalEquality(tags.title, record.title);
    if Normalize(tags.album) == "" {
      NormalizeIsSquash(tags.album);
      SquashEnds(Trim(tags.album));
      TrimShape(tags.album);
    } else {
      CleanKeepsNormalEquality(tags.album, record.album);
      if Normalize(Clean(tags.album)) == "" {
        EmptiedAlbumHasNoContext(record.album);
      }
    }
  }
}
