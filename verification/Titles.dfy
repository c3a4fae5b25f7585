/** Which orphaned file names stand for a title (src/scan.rs), over ASCII names. */
module Titles {
  import opened Basics
  import opened Text

  function Letters(s: string): string {
    if s == "" then "" else (if IsAlphanumeric(s[0]) then [LowerChar(s[0])] else "") + Letters(s[1..])
  }

  /** The letters and digits of a name without their case; a name without any has no key. */
  function TitleKey(value: string): Option<string> { if Letters(value) == "" then None else Some(Letters(value)) }

  predicate IsSeparator(c: char) { c == '-' || c == '.' || c == '_' || IsSpace(c) }

  /** `s[..k]` is a track number of one to three digits with at least one separator behind it. */
  ghost predicate IsTrackPrefix(s: string, k: nat) {
    k <= |s| && exists n :: 1 <= n <= 3 && NumberedUpTo(s, n, k)
  }

  ghost predicate NumberedUpTo(s: string, n: nat, k: nat) {
    && n < k <= |s|
    && (forall i :: 0 <= i < n ==> IsDigit(s[i]))
    && (forall i :: n <= i < k ==> IsSeparator(s[i]))
  }

  /** Where the digits that start at `i` end. */
  function DigitsEnd(s: string, i: nat): (n: nat)
    requires i <= |s|
    ensures i <= n <= |s| && (forall k :: i <= k < n ==> IsDigit(s[k])) && (n < |s| ==> !IsDigit(s[n]))
    decreases |s| - i
  {
    if i == |s| || !IsDigit(s[i]) then i else DigitsEnd(s, i + 1)
  }

  /** Where the separators that start at `i` end. */
  function SeparatorsEnd(s: string, i: nat): (n: nat)
    requires i <= |s|
    ensures i <= n <= |s| && (forall k :: i <= k < n ==> IsSeparator(s[k])) && (n < |s| ==> !IsSeparator(s[n]))
    decreases |s| - i
  {
    if i == |s| || !IsSeparator(s[i]) then i else SeparatorsEnd(s, i + 1)
  }

  function WithoutNumber(s: string): string {
    var n := DigitsEnd(s, 0);
    var m := SeparatorsEnd(s, n);
    if 1 <= n <= 3 && n < m then s[m..] else s
  }

  /** Exactly the longest track prefix is removed, and nothing when there is none. */
  lemma WithoutNumberIsLongest(s: string, k: nat)
    ensures |WithoutNumber(s)| <= |s| && WithoutNumber(s) == s[|s| - |WithoutNumber(s)|..]
    ensures WithoutNumber(s) != s ==> IsTrackPrefix(s, |s| - |WithoutNumber(s)|)
    ensures IsTrackPrefix(s, k) ==> k <= |s| - |WithoutNumber(s)|
  {
    var n := DigitsEnd(s, 0);
    var m := SeparatorsEnd(s, n);
    if IsTrackPrefix(s, k) {
      var d :| 1 <= d <= 3 && NumberedUpTo(s, d, k);
      assert IsSeparator(s[d]);
      assert d == n;
    }
    if 1 <= n <= 3 && n < m {
      assert NumberedUpTo(s, n, m);
    }
  }

  /** A name stands for a title when their keys agree, with or without the track number. */
  predicate StandsFor(name: string, title: string) {
    && TitleKey(title).Some?
    && (TitleKey(name) == TitleKey(title) || TitleKey(WithoutNumber(name)) == TitleKey(title))
  }

  /** The only name that stands for the title. */
  ghost predicate OnlyMatch(names: set<string>, title: string, name: string) {
    name in names && StandsFor(name, title) && forall other :: other in names && StandsFor(other, title) ==> other == name
  }

  method UniqueOrphanMatch(title: string, names: set<string>) returns (only: Option<string>)
    ensures only.Some? ==> OnlyMatch(names, title, only.value)
    ensures only.None? ==> forall name :: !OnlyMatch(names, title, name)
  {
    hide StandsFor;
    only := None;
    var left := names;
    while left != {}
      invariant left <= names
      invariant only.None? ==> forall name :: name in names - left ==> !StandsFor(name, title)
      invariant only.Some? ==> only.value !in left && OnlyMatch(names - left, title, only.value)
      decreases left
    {
      var name :| name in left;
      if StandsFor(name, title) {
        if only.Some? {
          assert name != only.value && StandsFor(only.value, title) && only.value in names;
          return None;
        }
        only := Some(name);
      }
      left := left - {name};
    }
    assert names - left == names;
  }
}
