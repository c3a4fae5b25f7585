/**
 Choosing one answer among records of any kind (src/lrclib.rs): `judge` says whether a record is
 acceptable with something to offer, whether it agrees on the album, and what it offers.
 */
module Selection {
  import opened Basics

  datatype LyricsResult =
    | Found(lyrics: string)
    | Instrumental
    | NotFound
    | Ambiguous
    | TemporaryFailure
    | Cancelled

  type Match = (bool, LyricsResult)

  ghost function Elements<R>(records: seq<R>): set<R> { set record | record in records }

  ghost function Matches<R(!new)>(judge: R -> Option<Match>, records: set<R>): set<Match> {
    set record | record in records && judge(record).Some? :: judge(record).value
  }

  /** The offers of the matches that agree on the album, or of all of them when none does. */
  ghost function BestTier(matches: set<Match>): set<LyricsResult> {
    if exists m :: m in matches && m.0 then set m | m in matches && m.0 :: m.1 else set m | m in matches :: m.1
  }

  /** One offer stands; none is a miss and several are ambiguous. */
  ghost function Verdict(offers: set<LyricsResult>): LyricsResult {
    if offers == {} then NotFound
    else
      var offer :| offer in offers;
      if offers == {offer} then offer else Ambiguous
  }

  ghost function Choose<R(!new)>(judge: R -> Option<Match>, records: set<R>): LyricsResult {
    Verdict(BestTier(Matches(judge, records)))
  }

  lemma MatchesOfMore<R(!new)>(judge: R -> Option<Match>, records: set<R>, record: R)
    ensures Matches(judge, records + {record})
      == Matches(judge, records) + (if judge(record).Some? then {judge(record).value} else {})
  {
    var all := records + {record};
    if judge(record).Some? {
      assert record in all;
      assert judge(record).value in Matches(judge, all);
    }
    forall n | n in Matches(judge, records) ensures n in Matches(judge, all) {
      var r :| r in records && judge(r) == Some(n);
      assert r in all;
    }
  }

  lemma VerdictOfOne(offers: set<LyricsResult>, offer: LyricsResult)
    requires offer in offers
    ensures (forall other :: other in offers ==> other == offer) ==> Verdict(offers) == offer
    ensures (exists other :: other in offers && other != offer) ==> Verdict(offers) == Ambiguous
  {
    if forall other :: other in offers ==> other == offer {
      assert offers == {offer};
    }
  }

  /** The scan of the records computes the set form, whatever their order and multiplicity. */
  method ChooseFrom<R(!new, ==)>(judge: R -> Option<Match>, records: seq<R>) returns (result: LyricsResult)
    ensures result == Choose(judge, Elements(records))
  {
    var matches: seq<Match> := [];
    for i := 0 to |records|
      invariant (set m | m in matches) == Matches(judge, Elements(records[..i]))
    {
      assert Elements(records[..i + 1]) == Elements(records[..i]) + {records[i]};
      MatchesOfMore(judge, Elements(records[..i]), records[i]);
      var m := judge(records[i]);
      if m.Some? {
        assert (set n | n in matches + [m.value]) == (set n | n in matches) + {m.value};
        matches := matches + [m.value];
      }
    }
    assert records[..|records|] == records;
    ghost var all := set m | m in matches;
    if exists m :: m in matches && m.0 {
      assert exists m :: m in all && m.0;
      matches := RetainExact(matches);
      assert (set m | m in matches :: m.1) == (set m | m in all && m.0 :: m.1);
    } else {
      assert (set m | m in matches :: m.1) == (set m | m in all :: m.1);
    }
    result := Agree(matches);
  }

  method RetainExact(matches: seq<Match>) returns (exact: seq<Match>)
    ensures forall m :: m in exact <==> m in matches && m.0
  {
    exact := [];
    for i := 0 to |matches|
      invariant forall m :: m in exact <==> m in matches[..i] && m.0
    {
      if matches[i].0 {
        exact := exact + [matches[i]];
      }
    }
  }

  method Agree(matches: seq<Match>) returns (result: LyricsResult)
    ensures result == Verdict(set m | m in matches :: m.1)
  {
    ghost var offers := set m | m in matches :: m.1;
    var selected: Option<LyricsResult> := None;
    for i := 0 to |matches|
      invariant selected.None? <==> i == 0
      invariant selected.Some? ==> forall k :: 0 <= k < i ==> matches[k].1 == selected.value
    {
      if selected.Some? && selected.value != matches[i].1 {
        assert matches[0] in matches && matches[i] in matches;
        assert matches[0].1 in offers;
        VerdictOfOne(offers, matches[i].1);
        return Ambiguous;
      }
      selected := Some(matches[i].1);
    }
    if selected.None? {
      assert offers == {};
      return NotFound;
    }
    assert matches[0] in matches;
    VerdictOfOne(offers, selected.value);
    return selected.value;
  }

  // ---------------------------------------------------------------------------
  // What a selection means
  // ---------------------------------------------------------------------------

  /** A usable record in the best album tier: it matches the album, or no usable record does. */
  ghost predicate Stands<R(!new)>(judge: R -> Option<Match>, records: set<R>, record: R) {
    && record in records && judge(record).Some?
    && (judge(record).value.0
        || forall other :: other in records && judge(other).Some? ==> !judge(other).value.0)
  }

  ghost predicate StandsFor<R(!new)>(judge: R -> Option<Match>, records: set<R>, record: R, offer: LyricsResult) {
    Stands(judge, records, record) && judge(record).value.1 == offer
  }

  lemma TierIsStanding<R(!new)>(judge: R -> Option<Match>, records: set<R>, offer: LyricsResult)
    ensures offer in BestTier(Matches(judge, records)) <==> exists record :: StandsFor(judge, records, record, offer)
  {
    var matches := Matches(judge, records);
    var tier := BestTier(matches);
    var exact := exists m :: m in matches && m.0;
    if offer in tier {
      var m :| m in matches && m.1 == offer && (exact ==> m.0);
      var record :| record in records && judge(record) == Some(m);
      forall other | other in records && judge(other).Some? && !m.0 ensures !judge(other).value.0 {
        assert judge(other).value in matches;
      }
      assert StandsFor(judge, records, record, offer);
    }
    if record :| StandsFor(judge, records, record, offer) {
      var m := judge(record).value;
      assert m in matches && m.1 == offer;
    }
  }

  /**
   The verdict in terms of the records that stand: a miss when there is none, their common offer
   when they agree, and ambiguity exactly when two of them differ. (Offers are never verdicts.)
   */
  lemma ChooseMeans<R(!new)>(judge: R -> Option<Match>, records: set<R>, offer: LyricsResult)
    requires forall r :: judge(r).Some? ==> judge(r).value.1 != NotFound && judge(r).value.1 != Ambiguous
    ensures Choose(judge, records) == NotFound <==> forall r :: r in records ==> judge(r).None?
    ensures Choose(judge, records) == Ambiguous <==>
      exists r, q :: Stands(judge, records, r) && Stands(judge, records, q) && judge(r).value.1 != judge(q).value.1
    ensures offer != NotFound && offer != Ambiguous ==>
      (Choose(judge, records) == offer <==>
        (exists r :: StandsFor(judge, records, r, offer))
        && forall r :: Stands(judge, records, r) ==> judge(r).value.1 == offer)
  {
    var tier, matches := BestTier(Matches(judge, records)), Matches(judge, records);
    forall o ensures o in tier <==> exists r :: StandsFor(judge, records, r, o) {
      TierIsStanding(judge, records, o);
    }
    forall r | Stands(judge, records, r) ensures judge(r).value.1 in tier {
      assert StandsFor(judge, records, r, judge(r).value.1);
    }
    forall r | r in records && judge(r).Some? ensures tier != {} {
      assert judge(r).value in matches;
      var m := if exists n :: n in matches && n.0 then (var n :| n in matches && n.0; n) else judge(r).value;
      assert m.1 in tier;
    }
    if tier != {} {
      var o :| o in tier;
      VerdictOfOne(tier, o);
      var r :| StandsFor(judge, records, r, o);
      if exists p :: p in tier && p != o {
        var p :| p in tier && p != o;
        var q :| StandsFor(judge, records, q, p);
        assert Stands(judge, records, r) && Stands(judge, records, q) && judge(r).value.1 != judge(q).value.1;
      }
    }
  }

  /** Order and multiplicity do not matter, and a record that offers nothing changes nothing. */
  lemma ChooseIgnoresNoise<R(!new)>(judge: R -> Option<Match>, a: seq<R>, b: seq<R>)
    requires forall r :: judge(r).Some? ==> (r in a <==> r in b)
    ensures Choose(judge, Elements(a)) == Choose(judge, Elements(b))
  {
    var left, right := Matches(judge, Elements(a)), Matches(judge, Elements(b));
    forall m ensures m in left <==> m in right {
      if m in left {
        var r :| r in Elements(a) && judge(r) == Some(m);
        assert r in Elements(b);
      }
      if m in right {
        var r :| r in Elements(b) && judge(r) == Some(m);
        assert r in Elements(a);
      }
    }
    assert left == right;
  }
}
