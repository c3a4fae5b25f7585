/** ASCII text: white space, case, words and trimming, with the algebra the cleaner relies on. */
module Text {
  predicate IsSpace(c: char) { '\t' <= c <= '\r' || c == ' ' }

  predicate IsDigit(c: char) { '0' <= c <= '9' }

  predicate IsAlphanumeric(c: char) { IsDigit(c) || 'a' <= c <= 'z' || 'A' <= c <= 'Z' }

  predicate IsOpen(c: char) { c == '(' || c == '[' || c == '{' }

  predicate IsClose(c: char) { c == ')' || c == ']' || c == '}' }

  function LowerChar(c: char): char { if 'A' <= c <= 'Z' then c + 32 as char else c }

  function Lower(s: string): string {
    if s == "" then "" else [LowerChar(s[0])] + Lower(s[1..])
  }

  lemma LowerJoins(a: string, b: string)
    ensures Lower(a + b) == Lower(a) + Lower(b)
  {
    if a == "" {
      assert a + b == b;
    } else {
      assert (a + b)[1..] == a[1..] + b;
    }
  }

  lemma LowerAt(s: string, i: nat)
    requires i < |s|
    ensures |Lower(s)| == |s| && Lower(s)[i] == LowerChar(s[i])
  {
    if |s| > 1 {
      LowerAt(s[1..], if i > 0 then i - 1 else 0);
    }
  }

  predicate Blank(s: string) { forall i :: 0 <= i < |s| ==> IsSpace(s[i]) }

  predicate Solid(s: string) { forall i :: 0 <= i < |s| ==> !IsSpace(s[i]) }

  function TrimStart(s: string): string {
    if s != "" && IsSpace(s[0]) then TrimStart(s[1..]) else s
  }

  function TrimEnd(s: string): string {
    if s != "" && IsSpace(s[|s| - 1]) then TrimEnd(s[..|s| - 1]) else s
  }

  function Trim(s: string): string { TrimEnd(TrimStart(s)) }

  predicate Trimmed(s: string) { s != "" ==> !IsSpace(s[0]) && !IsSpace(s[|s| - 1]) }

  /** The length of the leading run without white space. */
  function RunLength(s: string): (n: nat)
    ensures n <= |s| && Solid(s[..n]) && (n < |s| ==> IsSpace(s[n]))
    ensures s != "" && !IsSpace(s[0]) ==> n > 0
  {
    if s == "" || IsSpace(s[0]) then 0 else 1 + RunLength(s[1..])
  }

  lemma {:induction false} TrimStartShape(s: string)
    ensures |TrimStart(s)| <= |s|
    ensures TrimStart(s) == s[|s| - |TrimStart(s)|..]
    ensures Blank(s[..|s| - |TrimStart(s)|])
    ensures TrimStart(s) != "" ==> !IsSpace(TrimStart(s)[0])
    ensures TrimStart(s) == "" <==> Blank(s)
  {
    if s != "" && IsSpace(s[0]) {
      var rest := s[1..];
      TrimStartShape(rest);
      var k := |rest| - |TrimStart(rest)|;
      assert s[1 + k..] == rest[k..];
      assert s[..1 + k] == [s[0]] + rest[..k];
      assert Blank(s) <==> Blank(rest) by {
        assert s == [s[0]] + rest;
      }
    }
  }

  lemma SliceOfSlice(s: string, from: nat, to: nat, i: nat, j: nat)
    requires from <= to <= |s| && i <= j <= to - from
    ensures s[from..to][i..j] == s[from + i..from + j]
  {
    forall k | 0 <= k < j - i ensures s[from..to][i..j][k] == s[from + i..from + j][k] {
    }
  }

  lemma TrimEndShape(s: string)
    ensures |TrimEnd(s)| <= |s| && TrimEnd(s) == s[..|TrimEnd(s)|]
    ensures Blank(s[|TrimEnd(s)|..])
    ensures TrimEnd(s) != "" ==> !IsSpace(TrimEnd(s)[|TrimEnd(s)| - 1])
    ensures TrimEnd(s) == "" <==> Blank(s)
  {
    if s != "" && IsSpace(s[|s| - 1]) {
      var t := s[..|s| - 1];
      TrimEndShape(t);
      var k := |TrimEnd(s)|;
      assert s[k..] == t[k..] + [s[|s| - 1]];
      assert TrimEnd(t) == t[..k] == s[..k];
    }
  }

  lemma TrimShape(s: string)
    ensures Trimmed(Trim(s)) && |Trim(s)| <= |s|
    ensures Trim(s) == "" <==> Blank(s)
    ensures Trimmed(s) ==> Trim(s) == s
  {
    TrimStartShape(s);
    TrimEndShape(TrimStart(s));
    if Trim(s) == "" {
      assert s == s[..|s| - |TrimStart(s)|] + TrimStart(s);
    }
  }

  /** `split_whitespace` */
  function Words(s: string): seq<string>
    decreases |s|
  {
    TrimStartShape(s);
    var t := TrimStart(s);
    if t == "" then [] else [t[..RunLength(t)]] + Words(t[RunLength(t)..])
  }

  function Join(words: seq<string>): string {
    if words == [] then "" else if |words| == 1 then words[0] else words[0] + " " + Join(words[1..])
  }

  /** Runs of white space become one space, and letters lose their case. */
  function Squash(s: string): string {
    if s == "" then ""
    else if !IsSpace(s[0]) then [LowerChar(s[0])] + Squash(s[1..])
    else if |s| > 1 && IsSpace(s[1]) then Squash(s[1..])
    else " " + Squash(s[1..])
  }

  lemma {:induction false} SquashJoins(a: string, b: string)
    requires a == "" || b == "" || !IsSpace(a[|a| - 1]) || !IsSpace(b[0])
    ensures Squash(a + b) == Squash(a) + Squash(b)
    decreases |a|
  {
    if a == "" {
      assert a + b == b;
    } else if b == "" {
      assert a + b == a;
    } else {
      assert (a + b)[1..] == a[1..] + b;
      SquashJoins(a[1..], b);
      if |a| == 1 {
        assert a[1..] + b == b;
      }
    }
  }

  lemma SquashSolid(s: string)
    requires Solid(s)
    ensures Squash(s) == Lower(s)
  {
    if s != "" {
      SquashSolid(s[1..]);
    }
  }

  lemma SquashBlank(s: string)
    requires Blank(s) && s != ""
    ensures Squash(s) == " "
  {
    if |s| > 1 {
      SquashBlank(s[1..]);
    }
  }

  /** A squashed text is empty, starts and ends with white space exactly when the text does. */
  lemma SquashEnds(s: string)
    ensures Squash(s) == "" <==> s == ""
    ensures s != "" ==> (IsSpace(Squash(s)[0]) <==> IsSpace(s[0]))
    ensures s != "" ==> (IsSpace(Squash(s)[|Squash(s)| - 1]) <==> IsSpace(s[|s| - 1]))
    ensures s != "" && !IsSpace(s[|s| - 1]) ==> Squash(s)[|Squash(s)| - 1] == LowerChar(s[|s| - 1])
  {
    if s != "" {
      SquashEnds(s[1..]);
    }
  }

  lemma SquashTrimStart(s: string)
    ensures Squash(TrimStart(s)) == TrimStart(Squash(s))
  {
    if s == "" {
    } else if !IsSpace(s[0]) {
      SquashEnds(s);
    } else {
      SquashTrimStart(s[1..]);
      if |s| > 1 && IsSpace(s[1]) {
      } else {
        assert Squash(s) == " " + Squash(s[1..]);
        assert Squash(s)[1..] == Squash(s[1..]);
      }
    }
  }

  lemma SquashTrimEnd(s: string)
    ensures Squash(TrimEnd(s)) == TrimEnd(Squash(s))
  {
    TrimEndShape(s);
    var t := TrimEnd(s);
    var tail := s[|t|..];
    assert s == t + tail;
    SquashEnds(t);
    if tail != "" {
      SquashJoins(t, tail);
      SquashBlank(tail);
      assert (Squash(t) + " ")[..|Squash(t)|] == Squash(t);
    }
  }

  lemma SquashTrim(s: string)
    ensures Squash(Trim(s)) == Trim(Squash(s))
  {
    SquashTrimStart(s);
    SquashTrimEnd(TrimStart(s));
  }

  lemma {:induction false} SquashTwice(s: string)
    ensures Squash(Squash(s)) == Squash(s)
    decreases |s|
  {
    if s != "" {
      SquashTwice(s[1..]);
      SquashEnds(s[1..]);
      if !IsSpace(s[0]) {
        assert ([LowerChar(s[0])] + Squash(s[1..]))[1..] == Squash(s[1..]);
      } else if |s| > 1 && IsSpace(s[1]) {
      } else {
        assert (" " + Squash(s[1..]))[1..] == Squash(s[1..]);
      }
    }
  }

  lemma {:induction false} TrimEndTail(a: string, x: string)
    requires !Blank(x)
    ensures TrimEnd(a + x) == a + TrimEnd(x)
    decreases |x|
  {
    if IsSpace(x[|x| - 1]) {
      assert (a + x)[..|a + x| - 1] == a + x[..|x| - 1];
      TrimEndTail(a, x[..|x| - 1]);
    }
  }

  lemma SquashLeadingSpace(s: string)
    requires s != "" && IsSpace(s[0])
    ensures Squash(s) == " " + Squash(TrimStart(s))
  {
  }

  /** A text that starts with a word is that word and the rest. */
  lemma FirstWordOf(s: string) returns (run: string, rest: string)
    requires s != "" && !IsSpace(s[0])
    ensures s == run + rest && run != "" && Solid(run) && (rest == "" || IsSpace(rest[0]))
    ensures Words(s) == [run] + Words(rest)
    ensures Squash(s) == Lower(run) + Squash(rest)
  {
    run, rest := s[..RunLength(s)], s[RunLength(s)..];
    assert s == run + rest;
    assert TrimStart(s) == s;
    SquashSolid(run);
    SquashJoins(run, rest);
  }

  /** Splitting into words, joining them and lowering is squashing and trimming. */
  lemma {:induction false} JoinedWords(s: string)
    ensures Lower(Join(Words(s))) == Trim(Squash(s))
    decreases |s|
  {
    TrimStartShape(s);
    SquashTrimStart(s);
    var t := TrimStart(s);
    assert Words(s) == Words(t) by { assert TrimStart(t) == t; }
    if t != "" {
      var run, rest := FirstWordOf(t);
      JoinedWords(rest);
      TrimStartShape(rest);
      hide RunLength, Blank;
      if TrimStart(rest) == "" {
        LastWord(run, rest);
      } else {
        SquashTail(rest);
        NextWord(run, Squash(rest), Squash(TrimStart(rest)), Words(rest));
      }
    }
  }

  lemma LastWord(run: string, rest: string)
    requires run != "" && Solid(run) && Blank(rest)
    ensures Lower(run) == TrimEnd(Lower(run) + Squash(rest))
  {
    if rest != "" {
      SquashBlank(rest);
      assert (Lower(run) + " ")[..|Lower(run)|] == Lower(run);
    }
    LowerAt(run, |run| - 1);
  }

  lemma LowerJoin(run: string, words: seq<string>)
    requires words != []
    ensures Lower(Join([run] + words)) == Lower(run) + " " + Lower(Join(words))
  {
    assert ([run] + words)[1..] == words;
    assert Join([run] + words) == run + " " + Join(words);
    LowerJoins(run + " ", Join(words));
    LowerJoins(run, " ");
  }

  lemma SquashTail(rest: string)
    requires rest != "" && IsSpace(rest[0]) && TrimStart(rest) != ""
    ensures var x := Squash(TrimStart(rest));
      Squash(rest) == " " + x && x != "" && !IsSpace(x[0]) && Trim(Squash(rest)) == TrimEnd(x)
  {
    TrimStartShape(rest);
    SquashLeadingSpace(rest);
    SquashEnds(TrimStart(rest));
    SquashTrimStart(rest);
  }

  lemma NextWord(run: string, q: string, x: string, words: seq<string>)
    requires q == " " + x && x != "" && !IsSpace(x[0]) && words != []
    requires Lower(Join(words)) == TrimEnd(x)
    ensures Lower(Join([run] + words)) == TrimEnd(Lower(run) + q)
  {
    LowerJoin(run, words);
    assert Lower(run) + q == Lower(run) + " " + x;
    TrimEndTail(Lower(run) + " ", x);
  }
}
