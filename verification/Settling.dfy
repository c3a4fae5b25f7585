/** When a quiet directory has come to rest: what a second reconciliation and a second pass do (src/scan.rs). */
module Settling {
  import opened Basics
  import opened Text
  import opened Tables
  import opened Tags
  import opened Titles
  import opened CacheDbs
  import opened Scenes
  import opened SnapshotIndex
  import opened Publishing
  import opened Worlds
  import opened QuietPasses
  import opened Reconciliation
  import opened DirectoryPass
  import opened Convergence

  // ---------------------------------------------------------------------------
  // Reconciling again
  // ---------------------------------------------------------------------------

  /** No group claims an orphan. */
  ghost predicate NoClaims(a: Answers, directory: Directory, s: State, audio: map<string, seq<Path>>,
    lrc: map<string, seq<Path>>, groups: seq<Gathered>, n: nat)
    requires n <= |groups| && GroupsListed(audio, groups)
  {
    forall i, orphan :: 0 <= i < n ==> !Claims(a, directory, s, audio, lrc, groups, i, orphan)
  }

  /** A turn changes nothing, or it moves one orphan, for good. */
  lemma TurnShrinks(a: Answers, directory: Directory, s: State, audio: map<string, seq<Path>>, lrc: map<string, seq<Path>>,
    groups: seq<Gathered>, i: nat, t: State, after: map<string, seq<Path>>)
    requires i < |groups| && groups[i].tags != [] && groups[i].stem in audio
    requires QuietTurn(a, directory, s, audio, lrc, groups, i, t, after)
    ensures Orphans(audio, after) <= Orphans(audio, lrc)
    ensures if exists orphan :: Claims(a, directory, s, audio, lrc, groups, i, orphan)
      then |Orphans(audio, after)| < |Orphans(audio, lrc)| else t == s && after == lrc
  {
    hide MayMove, HeldOnlyBy, StandsFor, Carried;
    if exists orphan :: Claims(a, directory, s, audio, lrc, groups, i, orphan) {
      var orphan :| Claims(a, directory, s, audio, lrc, groups, i, orphan)
        && Carried(s, t, lrc[orphan][0], WithLrc(audio[groups[i].stem][0]), User)
        && after == (lrc - {orphan})[groups[i].stem := [WithLrc(audio[groups[i].stem][0])]];
      OneOrphanLess(audio, lrc, groups[i].stem, orphan, [WithLrc(audio[groups[i].stem][0])], after);
    }
  }

  lemma OneOrphanLess(audio: map<string, seq<Path>>, lrc: map<string, seq<Path>>, stem: string, orphan: string,
    target: seq<Path>, after: map<string, seq<Path>>)
    requires stem in audio && orphan in Orphans(audio, lrc) && after == (lrc - {orphan})[stem := target]
    ensures Orphans(audio, after) <= Orphans(audio, lrc) && |Orphans(audio, after)| < |Orphans(audio, lrc)|
  {
    assert Orphans(audio, after) == Orphans(audio, lrc) - {orphan};
  }

  /** A reconciliation moves nothing exactly if no group claims an orphan, and otherwise it leaves fewer orphans. */
  lemma {:induction false} TurnsShrink(a: Answers, directory: Directory, s: State, audio: map<string, seq<Path>>,
    lrc: map<string, seq<Path>>, groups: seq<Gathered>, n: nat, t: State, after: map<string, seq<Path>>)
    requires n <= |groups| && GroupsListed(audio, groups)
    requires QuietTurns(a, directory, s, audio, lrc, groups, n, t, after)
    ensures Orphans(audio, after) <= Orphans(audio, lrc)
    ensures if NoClaims(a, directory, s, audio, lrc, groups, n) then t == s && after == lrc
      else |Orphans(audio, after)| < |Orphans(audio, lrc)|
    decreases n
  {
    hide Claims, QuietTurn, Orphans;
    if n > 0 {
      var u, middle :| LastTurn(a, directory, s, audio, lrc, groups, n, u, middle, t, after);
      TurnsShrink(a, directory, s, audio, lrc, groups, n - 1, u, middle);
      TurnShrinks(a, directory, u, audio, middle, groups, n - 1, t, after);
      Fewer(Orphans(audio, middle), Orphans(audio, lrc));
      Fewer(Orphans(audio, after), Orphans(audio, middle));
      LastClaim(a, directory, s, audio, lrc, groups, n, n - 1);
    }
  }

  lemma Fewer(small: set<string>, big: set<string>)
    requires small <= big
    ensures |small| <= |big|
  {
    assert big == small + (big - small);
  }

  lemma LastClaim(a: Answers, directory: Directory, s: State, audio: map<string, seq<Path>>, lrc: map<string, seq<Path>>,
    groups: seq<Gathered>, n: nat, last: nat)
    requires 0 < n <= |groups| && GroupsListed(audio, groups) && last == n - 1
    ensures NoClaims(a, directory, s, audio, lrc, groups, n) <==>
      NoClaims(a, directory, s, audio, lrc, groups, last)
      && !exists orphan :: Claims(a, directory, s, audio, lrc, groups, last, orphan)
  {
    hide Claims;
  }

  /** One whole reconciliation. */
  ghost predicate Round(a: Answers, directory: Directory, audio: map<string, seq<Path>>, groups: seq<Gathered>, s: State,
    lrc: map<string, seq<Path>>, t: State, after: map<string, seq<Path>>) {
    GroupsListed(audio, groups) && QuietTurns(a, directory, s, audio, lrc, groups, |groups|, t, after)
  }

  /** Reconciliations one after the other, over the same audio. */
  ghost predicate Repeated(a: Answers, directory: Directory, audio: map<string, seq<Path>>, groups: seq<Gathered>,
    states: seq<State>, maps: seq<map<string, seq<Path>>>) {
    && |states| == |maps| > 0
    && forall i :: 0 < i < |states| ==> Round(a, directory, audio, groups, states[i - 1], maps[i - 1], states[i], maps[i])
  }

  /**
   Reconciling comes to rest: once a reconciliation has moved nothing, the next one moves nothing either, and
   with `k` orphans at the start this is so after at most `k` of them.
   */
  lemma {:induction false} ReconcilingRests(a: Answers, directory: Directory, audio: map<string, seq<Path>>,
    groups: seq<Gathered>, states: seq<State>, maps: seq<map<string, seq<Path>>>, i: nat)
    requires Repeated(a, directory, audio, groups, states, maps) && |Orphans(audio, maps[0])| <= i && i + 1 < |states|
    ensures states[i + 1] == states[i] && maps[i + 1] == maps[i]
  {
    hide Round, Orphans;
    OrphansBound(a, directory, audio, groups, states, maps, i);
    assert Round(a, directory, audio, groups, states[i], maps[i], states[i + 1], maps[i + 1]);
    RoundRests(a, directory, audio, groups, states[i], maps[i], states[i + 1], maps[i + 1]);
  }

  /** Each round before the rest takes an orphan away. */
  lemma {:induction false} OrphansBound(a: Answers, directory: Directory, audio: map<string, seq<Path>>,
    groups: seq<Gathered>, states: seq<State>, maps: seq<map<string, seq<Path>>>, i: nat)
    requires Repeated(a, directory, audio, groups, states, maps) && i < |states|
    ensures |Orphans(audio, maps[i])| + i <= |Orphans(audio, maps[0])| || AtRest(a, directory, audio, groups, states[i], maps[i])
    decreases i
  {
    hide Round, Orphans, AtRest;
    if i > 0 {
      OrphansBound(a, directory, audio, groups, states, maps, i - 1);
      assert Round(a, directory, audio, groups, states[i - 1], maps[i - 1], states[i], maps[i]);
      RoundShrinks(a, directory, audio, groups, states[i - 1], maps[i - 1], states[i], maps[i]);
    }
  }

  ghost predicate AtRest(a: Answers, directory: Directory, audio: map<string, seq<Path>>, groups: seq<Gathered>, s: State,
    lrc: map<string, seq<Path>>) {
    GroupsListed(audio, groups) && NoClaims(a, directory, s, audio, lrc, groups, |groups|)
  }

  lemma RoundShrinks(a: Answers, directory: Directory, audio: map<string, seq<Path>>, groups: seq<Gathered>, s: State,
    lrc: map<string, seq<Path>>, t: State, after: map<string, seq<Path>>)
    requires Round(a, directory, audio, groups, s, lrc, t, after)
    ensures if AtRest(a, directory, audio, groups, s, lrc)
      then t == s && after == lrc && AtRest(a, directory, audio, groups, t, after)
      else |Orphans(audio, after)| < |Orphans(audio, lrc)|
  {
    TurnsShrink(a, directory, s, audio, lrc, groups, |groups|, t, after);
    hide QuietTurns, NoClaims, Orphans;
  }

  lemma RoundRests(a: Answers, directory: Directory, audio: map<string, seq<Path>>, groups: seq<Gathered>, s: State,
    lrc: map<string, seq<Path>>, t: State, after: map<string, seq<Path>>)
    requires Round(a, directory, audio, groups, s, lrc, t, after)
    requires AtRest(a, directory, audio, groups, s, lrc) || |Orphans(audio, lrc)| <= 0
    ensures t == s && after == lrc
  {
    RoundShrinks(a, directory, audio, groups, s, lrc, t, after);
    hide Round, AtRest, Orphans;
  }

  // ---------------------------------------------------------------------------
  // One reconciliation need not be enough
  // ---------------------------------------------------------------------------

  const HOME := Directory(0)
  const X := Path(HOME, "x", Audio(0))
  const Y := Path(HOME, "y", Audio(0))
  const PLAIN := Path(HOME, "a", Lrc(0))
  const NUMBERED := Path(HOME, "1.a", Lrc(0))

  /** Two recordings, and two orphans that both stand for the title of the first, but only one for the second. */
  function TwoGroups(first: TrackTags, second: TrackTags): seq<Gathered> {
    [Gathered("x", [first.Normalized()]), Gathered("y", [second.Normalized()])]
  }

  function TwoAudio(): map<string, seq<Path>> { map["x" := [X], "y" := [Y]] }

  function TwoOrphans(): map<string, seq<Path>> { map["a" := [PLAIN], "1.a" := [NUMBERED]] }

  function Orphaned(): State {
    State(map[PLAIN := Node(Text("p"), User, 0), NUMBERED := Node(Text("n"), User, 1)], Tables(map[], map[]), 2)
  }

  function AfterOne(): State {
    State(map[PLAIN := Node(Text("p"), User, 0), WithLrc(Y) := Node(Text("n"), User, 1)], Tables(map[], map[]), 2)
  }

  function AfterTwo(): State {
    State(map[WithLrc(X) := Node(Text("p"), User, 0), WithLrc(Y) := Node(Text("n"), User, 1)], Tables(map[], map[]), 2)
  }

  /** What the names stand for. */
  lemma {:induction false} NamesStand()
    ensures TitleKey("a") == Some("a") && TitleKey("1.a") == Some("1a")
    ensures StandsFor("a", "a") && StandsFor("1.a", "a") && StandsFor("1.a", "1.a") && !StandsFor("a", "1.a")
  {
    assert Letters("a") == "a" by { assert "a"[1..] == ""; }
    assert Letters("1.a") == "1a" by {
      assert "1.a"[1..] == ".a" && ".a"[1..] == "a" && Letters(".a") == "a";
    }
    assert "a" != "1a" by { assert |"a"| == 1; }
    assert DigitsEnd("1.a", 1) == 1 && DigitsEnd("1.a", 0) == 1 && SeparatorsEnd("1.a", 2) == 2 && SeparatorsEnd("1.a", 1) == 2;
    assert "1.a"[2..] == "a" && WithoutNumber("1.a") == "a";
    assert DigitsEnd("a", 0) == 0 && WithoutNumber("a") == "a";
  }

  ghost predicate TwoTitles(a: Answers, first: TrackTags, second: TrackTags) {
    && first.Normalized().title == "a" && second.Normalized().title == "1.a"
    && a.tags(X) == Some(first) && a.tags(Y) == Some(second) && a.entries == {X, Y}
  }

  lemma TwoTurns(a: Answers, directory: Directory, audio: map<string, seq<Path>>, groups: seq<Gathered>, s: State,
    lrc: map<string, seq<Path>>, u: State, middle: map<string, seq<Path>>, t: State, after: map<string, seq<Path>>)
    requires GroupsListed(audio, groups) && |groups| == 2
    requires QuietTurn(a, directory, s, audio, lrc, groups, 0, u, middle)
    requires QuietTurn(a, directory, u, audio, middle, groups, 1, t, after)
    ensures Round(a, directory, audio, groups, s, lrc, t, after)
  {
    hide QuietTurn, GroupsListed;
    assert QuietTurns(a, directory, s, audio, lrc, groups, 0, s, lrc);
    assert LastTurn(a, directory, s, audio, lrc, groups, 1, s, lrc, u, middle);
    assert QuietTurns(a, directory, s, audio, lrc, groups, 1, u, middle);
    assert LastTurn(a, directory, s, audio, lrc, groups, 2, u, middle, t, after);
  }

  lemma TwoAreListed(first: TrackTags, second: TrackTags)
    ensures GroupsListed(TwoAudio(), TwoGroups(first, second))
  {
    hide TrackTags.Normalized;
    assert "x" != "y" by { assert "x"[0] != "y"[0]; }
  }

  /** Names of one and of three letters, and different letters. */
  lemma LettersDiffer()
    ensures "a" != "1.a" && "x" != "y" && "a" != "x" && "a" != "y" && "1.a" != "x" && "1.a" != "y"
  {
    assert |"a"| == 1 && |"1.a"| == 3 && |"x"| == 1 && |"y"| == 1;
    assert "x"[0] != "y"[0] && "a"[0] != "x"[0] && "a"[0] != "y"[0];
  }

  lemma NamesDiffer()
    ensures PLAIN != NUMBERED && PLAIN != WithLrc(Y) && NUMBERED != WithLrc(Y) && WithLrc(X) != WithLrc(Y)
    ensures PLAIN != WithLrc(X) && NUMBERED != WithLrc(X)
  {
    LettersDiffer();
  }

  /** No text is in the way, and no audio has the orphans' stems. */
  lemma OrphansMayMove(a: Answers, first: TrackTags, second: TrackTags)
    requires TwoTitles(a, first, second)
    ensures MayMove(a, HOME, Orphaned(), NUMBERED, WithLrc(Y), [Y], second.Normalized())
    ensures MayMove(a, HOME, AfterOne(), PLAIN, WithLrc(X), [X], first.Normalized())
  {
    hide TrackTags.Normalized;
    NamesDiffer();
    LettersDiffer();
    assert !BlankText("p") && !BlankText("n");
    assert !Paired(a.entries, HOME, NUMBERED) && !Paired(a.entries, HOME, PLAIN);
  }

  lemma MovingTurn(a: Answers, directory: Directory, s: State, audio: map<string, seq<Path>>, lrc: map<string, seq<Path>>,
    groups: seq<Gathered>, i: nat, orphan: string, t: State, after: map<string, seq<Path>>)
    requires i < |groups| && groups[i].tags != [] && Claims(a, directory, s, audio, lrc, groups, i, orphan)
    requires Carried(s, t, lrc[orphan][0], WithLrc(audio[groups[i].stem][0]), User)
    requires after == (lrc - {orphan})[groups[i].stem := [WithLrc(audio[groups[i].stem][0])]]
    ensures QuietTurn(a, directory, s, audio, lrc, groups, i, t, after)
  {
    hide Carried, Chosen, MayMove, WithLrc;
  }

  lemma StillTurn(a: Answers, directory: Directory, s: State, audio: map<string, seq<Path>>, lrc: map<string, seq<Path>>,
    groups: seq<Gathered>, i: nat)
    requires i < |groups| && groups[i].tags != []
    requires forall orphan :: !Chosen(audio, lrc, groups, i, orphan)
    ensures QuietTurn(a, directory, s, audio, lrc, groups, i, s, lrc)
  {
    hide Carried, Chosen, MayMove, WithLrc;
  }

  function Between(): map<string, seq<Path>> { map["a" := [PLAIN], "y" := [WithLrc(Y)]] }

  function Settled(): map<string, seq<Path>> { map["x" := [WithLrc(X)], "y" := [WithLrc(Y)]] }

  /** The names that are orphans before each round, and after both. */
  lemma OrphansAre()
    ensures Orphans(TwoAudio(), TwoOrphans()) == {"a", "1.a"} && Orphans(TwoAudio(), Between()) == {"a"}
  {
    LettersDiffer();
  }

  /** Both orphans stand for the first title, so the first group chooses none. */
  lemma FirstChoosesNone(first: TrackTags, second: TrackTags)
    requires first.Normalized().title == "a"
    ensures forall orphan :: !Chosen(TwoAudio(), TwoOrphans(), TwoGroups(first, second), 0, orphan)
  {
    hide TrackTags.Normalized, StandsFor, HeldOnlyBy, TitleKey, Orphans, TwoAudio, TwoOrphans;
    NamesStand();
    LettersDiffer();
    OrphansAre();
    forall orphan ensures !OnlyMatch({"a", "1.a"}, "a", orphan) {
      assert StandsFor("a", "a") && StandsFor("1.a", "a");
    }
  }

  /** Only one of them stands for the second title. */
  lemma SecondChooses(first: TrackTags, second: TrackTags)
    requires first.Normalized().title == "a" && second.Normalized().title == "1.a"
    ensures Chosen(TwoAudio(), TwoOrphans(), TwoGroups(first, second), 1, "1.a")
  {
    hide TrackTags.Normalized, StandsFor, HeldOnlyBy, TitleKey, Orphans, TwoAudio;
    NamesStand();
    LettersDiffer();
    TitlesHeld(first, second);
    OrphansAre();
  }

  /** When that one is gone, the other is the only one for the first title. */
  lemma FirstChooses(first: TrackTags, second: TrackTags)
    requires first.Normalized().title == "a" && second.Normalized().title == "1.a"
    ensures Chosen(TwoAudio(), Between(), TwoGroups(first, second), 0, "a")
    ensures forall orphan :: !Chosen(TwoAudio(), Settled(), TwoGroups(first, second), 1, orphan)
  {
    hide TrackTags.Normalized, StandsFor, HeldOnlyBy, TitleKey, Orphans, TwoAudio;
    NamesStand();
    LettersDiffer();
    TitlesHeld(first, second);
    OrphansAre();
    assert "y" in Settled();
  }

  lemma MovesCarry()
    ensures Carried(Orphaned(), AfterOne(), NUMBERED, WithLrc(Y), User)
    ensures Carried(AfterOne(), AfterTwo(), PLAIN, WithLrc(X), User)
  {
    NamesDiffer();
    assert AfterOne().files == (Orphaned().files - {NUMBERED})[WithLrc(Y) := Orphaned().files[NUMBERED]];
    assert AfterTwo().files == (AfterOne().files - {PLAIN})[WithLrc(X) := AfterOne().files[PLAIN]];
  }

  lemma MapsFollow()
    ensures Between() == (TwoOrphans() - {"1.a"})["y" := [WithLrc(Y)]]
    ensures Settled() == (Between() - {"a"})["x" := [WithLrc(X)]]
  {
    LettersDiffer();
  }

  /** In the first round only the second group has a name of its own. */
  lemma FirstRound(a: Answers, first: TrackTags, second: TrackTags)
    requires TwoTitles(a, first, second)
    ensures Round(a, HOME, TwoAudio(), TwoGroups(first, second), Orphaned(), TwoOrphans(), AfterOne(), Between())
  {
    var audio, groups, s, lrc := TwoAudio(), TwoGroups(first, second), Orphaned(), TwoOrphans();
    TwoAreListed(first, second);
    OrphansMayMove(a, first, second);
    MovesCarry();
    MapsFollow();
    LettersDiffer();
    hide TrackTags.Normalized, MayMove, GroupsListed, Carried, Chosen, QuietTurn, Orphaned, AfterOne, Between;
    FirstChoosesNone(first, second);
    SecondChooses(first, second);
    StillTurn(a, HOME, s, audio, lrc, groups, 0);
    assert Claims(a, HOME, s, audio, lrc, groups, 1, "1.a");
    hide Claims;
    MovingTurn(a, HOME, s, audio, lrc, groups, 1, "1.a", AfterOne(), Between());
    TwoTurns(a, HOME, audio, groups, s, lrc, s, lrc, AfterOne(), Between());
  }

  lemma TitlesHeld(first: TrackTags, second: TrackTags)
    requires first.Normalized().title == "a" && second.Normalized().title == "1.a"
    ensures HeldOnlyBy(TwoGroups(first, second), "a", 0) && HeldOnlyBy(TwoGroups(first, second), "1.a", 1)
  {
    NamesStand();
    hide TrackTags.Normalized, TitleKey;
    var groups := TwoGroups(first, second);
    assert |"a"| == 1 && |"1a"| == 2;
    assert Shares(groups[0], "a") by { assert TitleKey(groups[0].tags[0].title) == TitleKey("a"); }
    assert Shares(groups[1], "1.a") by { assert TitleKey(groups[1].tags[0].title) == TitleKey("1.a"); }
  }

  /** In the second round the other orphan is the only one left, and goes too. */
  lemma SecondRound(a: Answers, first: TrackTags, second: TrackTags)
    requires TwoTitles(a, first, second)
    ensures Round(a, HOME, TwoAudio(), TwoGroups(first, second), AfterOne(), Between(), AfterTwo(), Settled())
  {
    var audio, groups, s, lrc := TwoAudio(), TwoGroups(first, second), AfterOne(), Between();
    TwoAreListed(first, second);
    OrphansMayMove(a, first, second);
    MovesCarry();
    MapsFollow();
    LettersDiffer();
    hide TrackTags.Normalized, MayMove, GroupsListed, Carried, Chosen, QuietTurn, AfterOne, AfterTwo, Settled;
    FirstChooses(first, second);
    assert Claims(a, HOME, s, audio, lrc, groups, 0, "a");
    hide Claims;
    MovingTurn(a, HOME, s, audio, lrc, groups, 0, "a", AfterTwo(), Settled());
    StillTurn(a, HOME, AfterTwo(), audio, Settled(), groups, 1);
    TwoTurns(a, HOME, audio, groups, s, lrc, AfterTwo(), Settled(), AfterTwo(), Settled());
  }

  /**
   One reconciliation need not bring the directory to rest: the second group takes the orphan that made the
   first group's choice ambiguous, so that the next reconciliation moves again.
   */
  lemma ReconcilingMayGoOn(a: Answers, first: TrackTags, second: TrackTags) returns (states: seq<State>,
    maps: seq<map<string, seq<Path>>>)
    requires TwoTitles(a, first, second)
    ensures Repeated(a, HOME, TwoAudio(), TwoGroups(first, second), states, maps) && |states| == 3
    ensures maps[0] == TwoOrphans() && states[0] != states[1] && states[1] != states[2]
  {
    FirstRound(a, first, second);
    SecondRound(a, first, second);
    StatesDiffer();
    hide *;
    states := [Orphaned(), AfterOne(), AfterTwo()];
    maps := [TwoOrphans(), Between(), Settled()];
    RepeatedTwice(a, HOME, TwoAudio(), TwoGroups(first, second), states, maps);
  }

  lemma StatesDiffer()
    ensures Orphaned() != AfterOne() && AfterOne() != AfterTwo()
  {
    NamesDiffer();
    assert NUMBERED in Orphaned().files && NUMBERED !in AfterOne().files;
    assert PLAIN in AfterOne().files && PLAIN !in AfterTwo().files;
  }

  lemma RepeatedTwice(a: Answers, directory: Directory, audio: map<string, seq<Path>>, groups: seq<Gathered>,
    states: seq<State>, maps: seq<map<string, seq<Path>>>)
    requires |states| == |maps| == 3
    requires Round(a, directory, audio, groups, states[0], maps[0], states[1], maps[1])
    requires Round(a, directory, audio, groups, states[1], maps[1], states[2], maps[2])
    ensures Repeated(a, directory, audio, groups, states, maps)
  {
    hide Round;
  }

  // ---------------------------------------------------------------------------
  // A directory whose audio has its sidecars
  // ---------------------------------------------------------------------------

  /** The group has a sidecar, and if it is the only one it is not generated for other tags. */
  ghost predicate Accompanied(a: Answers, s: State, audio: map<string, seq<Path>>, lrc: map<string, seq<Path>>, stem: string) {
    && stem in audio && audio[stem] != [] && Candidates(lrc, stem) != []
    && (AllRead(a, audio[stem]) && |Candidates(lrc, stem)| == 1 && Readable(s.files, Candidates(lrc, stem)[0]).Some? ==>
          !StaleGenerated(s.tables, WithLrc(audio[stem][0]), a.tags(audio[stem][0]).value,
            Readable(s.files, Candidates(lrc, stem)[0]).value))
  }

  /** All files of the group are read, agree, may have a sidecar, and have a single readable one. */
  ghost predicate Takable(a: Answers, files: map<Path, Node>, audio: map<string, seq<Path>>, lrc: map<string, seq<Path>>,
    stem: string)
    requires stem in audio && audio[stem] != []
  {
    && |Candidates(lrc, stem)| == 1 && Readable(files, Candidates(lrc, stem)[0]).Some?
    && AllRead(a, audio[stem]) && a.eligible(WithLrc(audio[stem][0]))
    && forall k :: 0 <= k < |audio[stem]| ==>
         a.tags(audio[stem][k]).value.Normalized() == a.tags(audio[stem][0]).value.Normalized()
  }

  /** What can be taken from the group's sidecar is on record. */
  ghost predicate AtEase(a: Answers, s: State, audio: map<string, seq<Path>>, lrc: map<string, seq<Path>>, stem: string) {
    && stem in audio && audio[stem] != [] && Candidates(lrc, stem) != []
    && (Takable(a, s.files, audio, lrc, stem) ==>
          AllRecorded(s.tables, audio[stem], a.tags(audio[stem][0]).value, Readable(s.files, Candidates(lrc, stem)[0]).value))
  }

  /** A pass over an accompanied group ingests its sidecar, or does nothing. */
  lemma AccompaniedPass(a: Answers, retry: int, s: State, audio: map<string, seq<Path>>, lrc: map<string, seq<Path>>,
    stem: string, t: State, rerun: bool)
    requires Accompanied(a, s, audio, lrc, stem) && QuietGroup(a, retry, s, stem, audio, lrc, t, rerun)
    ensures !rerun
    ensures if Takable(a, s.files, audio, lrc, stem)
      then t == s.(tables := IngestedAll(s.tables, audio[stem], a.tags(audio[stem][0]).value,
        Readable(s.files, Candidates(lrc, stem)[0]).value, a.now))
      else t == s
  {
    hide IngestedAll, TrackTags.Normalized, Readable, QuietResolve, StaleGenerated, QuietPass;
    if |Candidates(lrc, stem)| == 1 {
      var r: Result<bool>, asked :| QuietPass(a, retry, s, audio[stem], Only(Candidates(lrc, stem)), t, r, asked)
        && rerun == (r.Ok? && r.value);
      if AllRead(a, audio[stem]) {
        var all := GroupUses(a, retry, s, audio[stem], Only(Candidates(lrc, stem)), t, r, asked);
      } else {
        UnreadDoesNothing(a, retry, s, audio[stem], Only(Candidates(lrc, stem)), t, r, asked);
      }
    }
  }

  lemma GroupUses(a: Answers, retry: int, s: State, paths: seq<Path>, existing: Option<Path>, t: State, r: Result<bool>,
    asked: bool)
    returns (all: seq<TrackTags>)
    requires paths != [] && AllRead(a, paths) && QuietPass(a, retry, s, paths, existing, t, r, asked)
    ensures |all| == |paths| && forall k :: 0 <= k < |paths| ==> a.tags(paths[k]) == Some(all[k])
    ensures QuietUse(a, retry, s, paths, all, existing, t, r, asked)
  {
    all := PassUses(a, retry, s, paths, existing, t, r, asked);
    hide QuietUse, QuietPass;
  }

  lemma UnreadDoesNothing(a: Answers, retry: int, s: State, paths: seq<Path>, existing: Option<Path>, t: State,
    r: Result<bool>, asked: bool)
    requires paths != [] && !AllRead(a, paths) && QuietPass(a, retry, s, paths, existing, t, r, asked)
    ensures t == s && r == Err
  {
    hide QuietUse;
  }

  /** Other groups' rows stay. */
  ghost predicate Elsewhere(t: Tables, u: Tables, key: Path) {
    && (forall path :: WithLrc(path) != key ==>
          (path in u.tracks <==> path in t.tracks) && (path in t.tracks ==> u.tracks[path] == t.tracks[path]))
    && (forall path :: path != key ==>
          (path in u.sidecars <==> path in t.sidecars) && (path in t.sidecars ==> u.sidecars[path] == t.sidecars[path]))
  }

  lemma {:induction false} IngestedElsewhere(t: Tables, paths: seq<Path>, tags: TrackTags, lyrics: string, now: int, key: Path)
    requires forall i :: 0 <= i < |paths| ==> WithLrc(paths[i]) == key
    ensures Elsewhere(t, IngestedAll(t, paths, tags, lyrics, now), key)
    decreases |paths|
  {
    hide TrackTags.Normalized, Ingested, Recorded;
    if paths != [] {
      IngestKeepsOrigin(t, paths[0], tags, lyrics, now);
      IngestedElsewhere(Ingested(t, paths[0], tags, lyrics, now), paths[1..], tags, lyrics, now, key);
    }
  }

  /** What is on record for one group, or not stale, stays so while another one is processed. */
  lemma OthersStay(a: Answers, directory: Directory, s: State, t: State, audio: map<string, seq<Path>>,
    lrc: map<string, seq<Path>>, stem: string, other: string)
    requires AudioListed(directory, audio) && stem in audio && other in audio && other != stem
    requires t == s.(tables := t.tables) && Elsewhere(s.tables, t.tables, WithLrc(audio[stem][0]))
    ensures Accompanied(a, s, audio, lrc, other) ==> Accompanied(a, t, audio, lrc, other)
    ensures AtEase(a, s, audio, lrc, other) ==> AtEase(a, t, audio, lrc, other)
  {
    hide TrackTags.Normalized, Readable;
    assert WithLrc(audio[other][0]) != WithLrc(audio[stem][0]);
    if AtEase(a, s, audio, lrc, other) && Takable(a, s.files, audio, lrc, other) {
      var tags, text := a.tags(audio[other][0]).value, Readable(s.files, Candidates(lrc, other)[0]).value;
      forall i | 0 <= i < |audio[other]| ensures Recorded(t.tables, audio[other][i], tags, text) {
        assert Recorded(s.tables, audio[other][i], tags, text);
        assert WithLrc(audio[other][i]) == WithLrc(audio[other][0]);
      }
    }
  }

  /** After its pass the group is at ease, and the others' rows are as they were. */
  lemma EasedPass(a: Answers, directory: Directory, retry: int, s: State, audio: map<string, seq<Path>>,
    lrc: map<string, seq<Path>>, stem: string, t: State, rerun: bool)
    requires AudioListed(directory, audio) && Accompanied(a, s, audio, lrc, stem)
    requires QuietGroup(a, retry, s, stem, audio, lrc, t, rerun)
    ensures t == s.(tables := t.tables) && !rerun && AtEase(a, t, audio, lrc, stem)
    ensures Elsewhere(s.tables, t.tables, WithLrc(audio[stem][0]))
  {
    AccompaniedPass(a, retry, s, audio, lrc, stem, t, rerun);
    hide TrackTags.Normalized, Readable, QuietGroup, StaleGenerated, IngestedAll, Recorded;
    if Takable(a, s.files, audio, lrc, stem) {
      var tags, text := a.tags(audio[stem][0]).value, Readable(s.files, Candidates(lrc, stem)[0]).value;
      assert Group(directory, audio[stem]);
      IngestedElsewhere(s.tables, audio[stem], tags, text, a.now, WithLrc(audio[stem][0]));
      IngestedAllRecords(s.tables, audio[stem], [], WithLrc(audio[stem][0]), tags, text, a.now);
      assert [] + audio[stem] == audio[stem];
    }
  }

  ghost predicate AllAccompanied(a: Answers, s: State, audio: map<string, seq<Path>>, lrc: map<string, seq<Path>>,
    stems: set<string>) {
    forall stem :: stem in stems ==> Accompanied(a, s, audio, lrc, stem)
  }

  ghost predicate AllAtEase(a: Answers, s: State, audio: map<string, seq<Path>>, lrc: map<string, seq<Path>>,
    stems: set<string>) {
    forall stem :: stem in stems ==> AtEase(a, s, audio, lrc, stem)
  }

  /** One pass over accompanied groups leaves the files and puts every group at ease. */
  lemma {:induction false} GroupsEase(a: Answers, directory: Directory, retry: int, s: State, order: seq<string>,
    audio: map<string, seq<Path>>, lrc: map<string, seq<Path>>, t: State, changed: bool)
    requires AudioListed(directory, audio) && AllAccompanied(a, s, audio, lrc, audio.Keys)
    requires Names(order) <= audio.Keys && |Names(order)| == |order|
    requires QuietGroups(a, retry, s, order, audio, lrc, t, changed)
    ensures t == s.(tables := t.tables) && !changed
    ensures AllAtEase(a, t, audio, lrc, Names(order)) && AllAccompanied(a, t, audio, lrc, audio.Keys - Names(order))
    decreases |order|
  {
    if order != [] {
      var n := |order| - 1;
      var u, before, rerun :| QuietGroups(a, retry, s, order[..n], audio, lrc, u, before)
        && QuietGroup(a, retry, u, order[n], audio, lrc, t, rerun) && changed == (before || rerun);
      LastName(order);
      hide QuietGroups, QuietGroup, Accompanied, AtEase, Elsewhere, AudioListed, Names;
      GroupsEase(a, directory, retry, s, order[..n], audio, lrc, u, before);
      assert Accompanied(a, u, audio, lrc, order[n]);
      EasedPass(a, directory, retry, u, audio, lrc, order[n], t, rerun);
      forall stem | stem in audio.Keys && stem != order[n]
        ensures Accompanied(a, u, audio, lrc, stem) ==> Accompanied(a, t, audio, lrc, stem)
        ensures AtEase(a, u, audio, lrc, stem) ==> AtEase(a, t, audio, lrc, stem)
      {
        OthersStay(a, directory, u, t, audio, lrc, order[n], stem);
      }
    }
  }

  lemma LastName(order: seq<string>)
    requires order != [] && |Names(order)| == |order|
    ensures var n := |order| - 1;
      && Names(order) == Names(order[..n]) + {order[n]} && order[n] !in Names(order[..n]) && |Names(order[..n])| == n
  {
    var n := |order| - 1;
    assert order == order[..n] + [order[n]];
    assert Names(order) == Names(order[..n]) + {order[n]};
    NamesAtMost(order[..n]);
    OneMore(Names(order[..n]), order[n]);
  }

  lemma OneMore(names: set<string>, name: string)
    ensures |names + {name}| == if name in names then |names| else |names| + 1
  {
    assert name in names ==> names + {name} == names;
  }

  lemma {:induction false} NamesAtMost(order: seq<string>)
    ensures |Names(order)| <= |order|
    decreases |order|
  {
    if order != [] {
      var n := |order| - 1;
      assert order == order[..n] + [order[n]];
      assert Names(order) == Names(order[..n]) + {order[n]};
      NamesAtMost(order[..n]);
    }
  }

  /** A group at ease is left alone. */
  lemma EaseRests(a: Answers, retry: int, s: State, audio: map<string, seq<Path>>, lrc: map<string, seq<Path>>, stem: string,
    t: State, rerun: bool)
    requires AtEase(a, s, audio, lrc, stem) && QuietGroup(a, retry, s, stem, audio, lrc, t, rerun)
    ensures t == s && !rerun
  {
    EaseIsAccompanied(a, s, audio, lrc, stem);
    hide QuietGroup, TrackTags.Normalized, Readable, StaleGenerated, Recorded, IngestedAll;
    if Takable(a, s.files, audio, lrc, stem) || !Differing(a, s, audio, lrc, stem) {
      AccompaniedPass(a, retry, s, audio, lrc, stem, t, rerun);
      if Takable(a, s.files, audio, lrc, stem) {
        IngestedAllAgain(s.tables, audio[stem], a.tags(audio[stem][0]).value, Readable(s.files, Candidates(lrc, stem)[0]).value, a.now);
      }
    } else {
      DifferingRests(a, retry, s, audio, lrc, stem, t, rerun);
    }
  }

  /** The group is read but its files differ, or they may not have a sidecar. */
  ghost predicate Differing(a: Answers, s: State, audio: map<string, seq<Path>>, lrc: map<string, seq<Path>>, stem: string)
    requires stem in audio && audio[stem] != []
  {
    && AllRead(a, audio[stem]) && |Candidates(lrc, stem)| == 1 && Readable(s.files, Candidates(lrc, stem)[0]).Some?
    && !Takable(a, s.files, audio, lrc, stem)
  }

  lemma EaseIsAccompanied(a: Answers, s: State, audio: map<string, seq<Path>>, lrc: map<string, seq<Path>>, stem: string)
    requires AtEase(a, s, audio, lrc, stem)
    ensures Differing(a, s, audio, lrc, stem) || Accompanied(a, s, audio, lrc, stem)
  {
    hide TrackTags.Normalized, Readable;
    if Takable(a, s.files, audio, lrc, stem) {
      assert Recorded(s.tables, audio[stem][0], a.tags(audio[stem][0]).value, Readable(s.files, Candidates(lrc, stem)[0]).value);
    }
  }

  lemma DifferingRests(a: Answers, retry: int, s: State, audio: map<string, seq<Path>>, lrc: map<string, seq<Path>>,
    stem: string, t: State, rerun: bool)
    requires stem in audio && audio[stem] != [] && Differing(a, s, audio, lrc, stem)
    requires QuietGroup(a, retry, s, stem, audio, lrc, t, rerun)
    ensures t == s && !rerun
  {
    hide TrackTags.Normalized, Readable, QuietPass, QuietSettle;
    var r: Result<bool>, asked :| QuietPass(a, retry, s, audio[stem], Only(Candidates(lrc, stem)), t, r, asked)
      && rerun == (r.Ok? && r.value);
    var all := GroupUses(a, retry, s, audio[stem], Only(Candidates(lrc, stem)), t, r, asked);
  }

  lemma {:induction false} GroupsRest(a: Answers, retry: int, s: State, order: seq<string>, audio: map<string, seq<Path>>,
    lrc: map<string, seq<Path>>, t: State, changed: bool)
    requires AllAtEase(a, s, audio, lrc, Names(order)) && QuietGroups(a, retry, s, order, audio, lrc, t, changed)
    ensures t == s && !changed
    decreases |order|
  {
    if order != [] {
      var n := |order| - 1;
      var u, before, rerun :| QuietGroups(a, retry, s, order[..n], audio, lrc, u, before)
        && QuietGroup(a, retry, u, order[n], audio, lrc, t, rerun) && changed == (before || rerun);
      assert order[n] in Names(order) && Names(order[..n]) <= Names(order);
      hide QuietGroups, QuietGroup, AtEase, Names;
      GroupsRest(a, retry, s, order[..n], audio, lrc, u, before);
      EaseRests(a, retry, s, audio, lrc, order[n], t, rerun);
    }
  }

  lemma LaterAnswers(a: Answers, b: Answers, s: State, audio: map<string, seq<Path>>, lrc: map<string, seq<Path>>,
    stems: set<string>)
    requires SameAnswers(a, b) && AllAtEase(a, s, audio, lrc, stems)
    ensures AllAtEase(b, s, audio, lrc, stems)
  {
    hide TrackTags.Normalized, Readable, AllRecorded;
    forall stem | stem in stems ensures AtEase(b, s, audio, lrc, stem) {
      assert AtEase(a, s, audio, lrc, stem);
      assert Takable(b, s.files, audio, lrc, stem) == Takable(a, s.files, audio, lrc, stem);
    }
  }

  // ---------------------------------------------------------------------------
  // Two listings of the same files
  // ---------------------------------------------------------------------------

  /** Each stem's files come in the order of their names, whatever that is. */
  ghost predicate Ordered(rank: Path -> int, m: map<string, seq<Path>>) { forall stem :: stem in m ==> Rising(rank, m[stem]) }

  ghost predicate Rising(rank: Path -> int, paths: seq<Path>) {
    forall i, j :: 0 <= i < j < |paths| ==> rank(paths[i]) < rank(paths[j])
  }

  lemma {:induction false} SameRising(rank: Path -> int, a: seq<Path>, b: seq<Path>)
    requires Rising(rank, a) && Rising(rank, b) && forall path :: path in a <==> path in b
    ensures a == b
    decreases |a|
  {
    assert a != [] ==> a[0] in b;
    assert b != [] ==> b[0] in a;
    if a != [] && b != [] {
      var n, m := |a| - 1, |b| - 1;
      SameLast(rank, a, b);
      assert a == a[..n] + [a[n]] && b == b[..m] + [b[m]];
      forall path ensures path in a[..n] <==> path in b[..m] {
        NotLast(rank, a, path);
        NotLast(rank, b, path);
      }
      SameRising(rank, a[..n], b[..m]);
    }
  }

  lemma SameLast(rank: Path -> int, a: seq<Path>, b: seq<Path>)
    requires a != [] && b != [] && Rising(rank, a) && Rising(rank, b) && forall path :: path in a <==> path in b
    ensures a[|a| - 1] == b[|b| - 1]
  {
    assert a[|a| - 1] in b && b[|b| - 1] in a;
  }

  lemma NotLast(rank: Path -> int, paths: seq<Path>, path: Path)
    requires paths != [] && Rising(rank, paths)
    ensures path in paths[..|paths| - 1] <==> path in paths && path != paths[|paths| - 1]
  {
    assert paths == paths[..|paths| - 1] + [paths[|paths| - 1]];
  }

  /** What one listing has, another one of the same files has too. */
  lemma ListsTheSame(a: Answers, b: Answers, directory: Directory, files: map<Path, Node>, l: Listing, m: Listing)
    requires ListsExactly(a, directory, files, l) && ListsExactly(b, directory, files, m)
    requires a.entries == b.entries && a.eligible == b.eligible
    ensures l.reserved <= m.reserved
    ensures forall path :: IsSidecar(path) && Has(l.lrc, path) ==> Has(m.lrc, path)
    ensures forall path :: IsAudio(path) && Has(l.audio, path) ==> Has(m.audio, path)
  {
    var es: seq<Path> :| (forall path :: path in es ==> Within(path, directory) && (path in files || path in a.entries))
      && (forall path :: Within(path, directory) && (path in files || path in a.entries) ==> path in es)
      && ListsFirst(a, files, es, |es|, l);
    var fs: seq<Path> :| (forall path :: path in fs ==> Within(path, directory) && (path in files || path in b.entries))
      && (forall path :: Within(path, directory) && (path in files || path in b.entries) ==> path in fs)
      && ListsFirst(b, files, fs, |fs|, m);
    assert forall path :: CountsIn(b, files, path) == CountsIn(a, files, path);
    hide CountsIn;
    assert es[..|es|] == es && fs[..|fs|] == fs;
    assert forall path :: path in es <==> path in fs;
    forall stem | stem in l.reserved ensures stem in m.reserved {
      var k :| 0 <= k < |es| && IsAudioOf(es[k], stem);
      assert es[k] in fs;
      var j :| 0 <= j < |fs| && fs[j] == es[k];
      assert IsAudioOf(fs[j], stem);
    }
  }

  /** So listings whose files come in order are equal. */
  lemma SameListing(rank: Path -> int, a: Answers, b: Answers, directory: Directory, files: map<Path, Node>, l: Listing,
    m: Listing)
    requires ListsExactly(a, directory, files, l) && ListsExactly(b, directory, files, m)
    requires a.entries == b.entries && a.eligible == b.eligible
    requires AudioListed(directory, l.audio) && SidecarsListed(directory, l.lrc)
    requires AudioListed(directory, m.audio) && SidecarsListed(directory, m.lrc)
    requires Ordered(rank, l.audio) && Ordered(rank, l.lrc) && Ordered(rank, m.audio) && Ordered(rank, m.lrc)
    ensures l == m
  {
    ListsTheSame(a, b, directory, files, l, m);
    ListsTheSame(b, a, directory, files, m, l);
    hide ListsExactly;
    MembersAreAudio(directory, l.audio);
    MembersAreAudio(directory, m.audio);
    SameMap(rank, l.audio, m.audio);
    SameMap(rank, l.lrc, m.lrc);
  }

  lemma MembersAreAudio(directory: Directory, audio: map<string, seq<Path>>)
    requires AudioListed(directory, audio)
    ensures forall stem, path :: stem in audio && path in audio[stem] ==> IsAudio(path) && path.stem == stem
    ensures forall stem :: stem in audio ==> audio[stem] != []
  {
    forall stem, path | stem in audio && path in audio[stem] ensures IsAudio(path) && path.stem == stem {
      assert Group(directory, audio[stem]) && Within(audio[stem][0], directory);
      var i :| 0 <= i < |audio[stem]| && audio[stem][i] == path;
      assert WithLrc(audio[stem][i]) == WithLrc(audio[stem][0]);
    }
  }

  lemma SameMap(rank: Path -> int, l: map<string, seq<Path>>, m: map<string, seq<Path>>)
    requires Ordered(rank, l) && Ordered(rank, m)
    requires forall stem, path :: stem in l && path in l[stem] ==> Has(l, path) && path.stem == stem
    requires forall stem, path :: stem in m && path in m[stem] ==> Has(m, path) && path.stem == stem
    requires (forall stem :: stem in l ==> l[stem] != []) && (forall stem :: stem in m ==> m[stem] != [])
    requires forall path :: Has(l, path) <==> Has(m, path)
    ensures l == m
  {
    forall stem | stem in l ensures stem in m { assert l[stem][0] in l[stem] && Has(m, l[stem][0]); }
    forall stem | stem in m ensures stem in l { assert m[stem][0] in m[stem] && Has(l, m[stem][0]); }
    forall stem | stem in l ensures l[stem] == m[stem] {
      forall path ensures path in l[stem] <==> path in m[stem] {
        assert path in l[stem] ==> Has(l, path);
        assert path in m[stem] ==> Has(m, path);
      }
      SameRising(rank, l[stem], m[stem]);
    }
  }

  /**
   A library whose audio has its sidecars comes to rest at once: where every group has one and none is generated
   for other tags, a quiet pass that keeps orphans leaves all files, and the next one, whenever it comes,
   lists the same, leaves the rows too, and neither asks for a rerun.
   */
  lemma SidecarsSettle(rank: Path -> int, a: Answers, b: Answers, directory: Directory, retry: int, s: State, first: Trail,
    t: State, changed: bool, second: Trail, u: State, again: bool)
    requires QuietDirectory(a, directory, retry, Keep, s, first, t, changed)
    requires QuietDirectory(b, directory, retry, Keep, t, second, u, again)
    requires SameAnswers(a, b) && a.entries == b.entries
    requires Ordered(rank, first.listing.audio) && Ordered(rank, first.listing.lrc)
    requires Ordered(rank, second.listing.audio) && Ordered(rank, second.listing.lrc)
    requires AllAccompanied(a, s, first.listing.audio, first.listing.lrc, first.listing.audio.Keys)
    ensures t.files == s.files && !changed && second.listing == first.listing && u == t && !again
  {
    var audio, lrc := first.listing.audio, first.listing.lrc;
    hide ListsExactly, QuietGroups, QuietDisposals, Names, Members, Unpaired, AudioListed, SidecarsListed, AllAccompanied,
      AllAtEase, QuietTurns, GroupsListed, GroupsExact, Ordered;
    OrderCovers(first, audio);
    GroupsEase(a, directory, retry, s, first.order, audio, lrc, first.processed, changed);
    DisposalsAreExact(a, directory, Keep, first.processed, first.disposed, t);
    SameListing(rank, a, b, directory, s.files, first.listing, second.listing);
    LaterAnswers(a, b, t, audio, lrc, audio.Keys);
    GroupsRest(b, retry, t, second.order, audio, lrc, second.processed, again);
    DisposalsAreExact(b, directory, Keep, second.processed, second.disposed, u);
  }

  lemma OrderCovers(trail: Trail, audio: map<string, seq<Path>>)
    requires Names(trail.order) == audio.Keys && |trail.order| == |audio.Keys|
    ensures Names(trail.order) <= audio.Keys && |Names(trail.order)| == |trail.order|
  {
    hide Names;
  }
}
