/** The event with its back-draw, match by match, told from the first-round matches that are played. */
module BackDrawTable {
  import opened Draws
  import opened Powers
  import opened Knockout
  import opened Collapse
  import opened DropTree
  import BackDraw
  import BackDrawPlay
  import ConsolationTree

  /** Which first-round matches are played. */
  function Openers(draw: Plan, k: nat): (alive: seq<bool>)
    requires k >= 1
    ensures |alive| == Pow2(k - 1)
  {
    seq(Pow2(k - 1), s requires 0 <= s => MatchId(Winners, 1, s) in draw)
  }

  lemma OpenersAreLosers(sides: seq<Team>, draw: Plan)
    requires Rounds(sides) >= 2 && BackDrawPlay.IsDraw(sides, draw)
    ensures BackDraw.LoserLane(sides).alive == Openers(draw, Rounds(sides))
  {
    forall s: nat | s < Pow2(Rounds(sides) - 1)
      ensures BackDraw.LoserLane(sides).alive[s] == Openers(draw, Rounds(sides))[s]
    {
      assert BracketMatch(draw, sides, NoFeed, MatchId(Winners, 1, s));
    }
  }

  /** The loser of a first-round match enters the back-draw where its half meets the next that has a loser; everybody
      else who loses in the main draw is out. */
  lemma MainLosersGo(sides: seq<Team>, ms: map<MatchId, Spec>, r: nat, s: nat)
    requires Rounds(sides) >= 2 && BackDraw.IsBackDraw(sides, ms) && MatchId(Winners, r, s) in BackDrawPlay.DrawOf(ms)
    ensures var draw := BackDrawPlay.DrawOf(ms);
            var lose := draw[MatchId(Winners, r, s)].lose;
            if r == 1 then GoesToFirst(Openers(draw, Rounds(sides)), 0, s, Consolation, lose) else lose == NoFeed
  {
    var draw := BackDrawPlay.DrawOf(ms);
    BackDrawPlay.PlanIsDraw(sides, ms);
    assert BracketMatch(draw, sides, NoFeed, MatchId(Winners, r, s));
    if r == 1 {
      OpenersAreLosers(sides, draw);
      BackDraw.LoserDrops(sides, s);
      LoserIsDropper(BackDraw.LoserLane(sides), s);
      DropGoesToFirst(BackDraw.LoserLane(sides), Consolation, s);
    }
  }

  /** The back-draw has a match where two halves with losers meet, in the round of its level, and its winner goes to the
      next such place. */
  lemma BackDrawMatches(sides: seq<Team>, ms: map<MatchId, Spec>, x: nat, j: nat)
    requires Rounds(sides) >= 2 && BackDraw.IsBackDraw(sides, ms)
    requires BothHalves(Openers(BackDrawPlay.DrawOf(ms), Rounds(sides)), x, j)
    ensures var draw := BackDrawPlay.DrawOf(ms);
            var alive := Openers(draw, Rounds(sides));
            var id := MatchId(Consolation, RoundNo(alive, x), j);
            && id in draw && draw[id].lose == NoFeed && GoesToFirst(alive, x, j, Consolation, draw[id].win)
  {
    var draw, sh := BackDrawPlay.DrawOf(ms), BackDraw.LoserLane(sides);
    BackDrawPlay.PlanIsDraw(sides, ms);
    OpenersAreLosers(sides, draw);
    MeetsWhereHalvesMeet(sh, x, j);
    WinGoesToFirst(sh, Consolation, x, j);
    assert BackDrawPlay.TreeNodeIn(sh, draw, x, j);
  }

  /** And it has no other. */
  lemma NoOtherMatches(sides: seq<Team>, ms: map<MatchId, Spec>, id: MatchId) returns (x: nat)
    requires BackDraw.IsBackDraw(sides, ms) && id in BackDrawPlay.DrawOf(ms) && id.group != Winners
    ensures Rounds(sides) >= 2 && id.group == Consolation
    ensures var alive := Openers(BackDrawPlay.DrawOf(ms), Rounds(sides));
            BothHalves(alive, x, id.slot) && id.round == RoundNo(alive, x)
  {
    var draw, sh := BackDrawPlay.DrawOf(ms), BackDraw.LoserLane(sides);
    BackDrawPlay.PlanIsDraw(sides, ms);
    OpenersAreLosers(sides, draw);
    x :| Emitted(sh, x, id.slot) && ConsolationTree.NameIn(Consolation, sh, x, id.slot) == id;
    WinGoesToFirst(sh, Consolation, x, id.slot);
  }
}
