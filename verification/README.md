# PlanMyPickle engine: a verified model

A Dafny model of the tournament engine in `internal/engine` and of the free-analysis protocol in
`internal/service/analyses.go`, with proofs about every field size, every sequence of outcomes, every night of
rotation and every interleaving of database statements.

Verify everything with `dafny verify dfyconfig.toml`.

## How it is organised

**Elimination plans.** `Powers` and `SeedOrder` hold the bracket arithmetic. `Bracket` builds the single-elimination
draw, `DoubleElim` the winners and losers brackets, `ConsolationTree` the bye-aware tree used by the back-draw and by
every compass direction, and `Compass` the whole compass. Each generator is a method in the source's imperative form,
proved to produce exactly a closed-form plan. `Collapse` is the theory behind the closed forms: which token sits on
which seat of a losers ladder or a consolation lane once byes have been skipped, and where it goes next. `Relabel`
renumbers rounds. `BackDraw` joins a bracket and its back-draw the way the service persists them. `Draws` and `Play`
give a plan an execution semantics: seats fill, any ready match is played with any winner, winner and loser are routed
along the feeds. `Knockout`, `SingleElimination`, `DoubleElimPlay`, `BackDrawPlay`, `CompassDraw`, `CompassPlay` and
`CompassGames` show that the plans are wired one producer to one seat and draw the conclusions about all runs.
`Favourites` says who meets whom when the seeding holds. `History` and `ComeAround` (module `ComeAroundDrops`) bound who
can have met whom, for the rematch result; `FiveTeams` is its one exception. `BracketTable`, `LosersTable`, `DropTree`, `BackDrawTable` and
`CompassTable` describe the finished plans once more, match by match and from the plan alone, without the closed forms.

**Rotation.** `Layout` is the safety check, `Seeding` the two ways of opening courts, `Rotation` one round of the river,
`River` its movement, partners, refusal signal and waiting times, `FairPass` the equal-court-time pass, and `FairNight`
what the pass achieves and what any mix of rounds keeps for a whole night. `FairQueue` is the queue it leaves, and
`Lineup` reads an opened floor as one line and compares it with the list of players.

**Pool play.** `Circle` is the circle method, `Schedule` the clamping of rounds and the court placement, `Names` and
`Mixer` the rotating-partner mixer, `MixerPlay` its balance, `MixerBooks` the truth of its counters, `MixerChoice`
its choices as the rounds played so far explain them, and `PoolPlay` the dispatcher with its promises.

**Free analyses.** `Analyses` holds the table, the statements and the programs that issue them; `AnalysisRuns` the
invariant over all interleavings, and `FreeService` what the quota does not keep back.

Team, player and row identities are abstract values. Where the source keeps pointers to shared match objects the model
keeps a map from coordinates to match records, reassigned step by step. Where it keeps maps keyed by formatted strings
(`"r:j"`, `"a|b"`, unit numbers) the model keys by the coordinates, the unordered pair or the number.

## Results worth reading first

- `DoubleElimPlay.EveryRunReachesTheFinal`, `DoubleElimPlay.MatchesToPlay`, `FiveTeams.SecondRoundRematch`
- `LosersTable.LosersBracket`, `LosersTable.LosersDrop`, `CompassTable.FullTable`, `DropTree.MatchesOfTree`
- `CompassPlay.CompassIsWired`, `CompassGames.EveryonePlaysEnough`, `BackDrawPlay.OpenersPlayTwiceUnless`
- `River.ResultsMovePlayers`, `River.WaitsExactly`, `Lineup.GapsFillInOrder`, `FairQueue.QueueAfterThePass`
- `FairNight.NightIsSafe`, `FairNight.FairRefusalIsExact`, `FairNight.PassEvensOut`
- `Circle.EveryPairMeetsOnce`, `PoolPlay.EveryPairMeetsEvenly`, `MixerPlay.EverybodyPlaysTheAverage`
- `MixerChoice.PartnersAreFresh`, `MixerChoice.OpponentsAreFresh`
- `AnalysisRuns.FreeQuotaHolds`, `AnalysisRuns.SubmittedAtMostOnce`, `AnalysisRuns.WithinUnlessOverrun`

The plan theorems take a plan in closed form as their premise (`DoubleElim.IsDoubleElim`, `Compass.IsCompass`,
`Bracket.IsBracket`, `ConsolationTree.IsTree`, `BackDraw.IsBackDraw`); each generator's contract says that its own
result is one, for every input, so the theorems are about what the generators produce.

## Where the code says less than its comments

- `internal/service/analyses.go` describes a fixed free quota that a user cannot pass. The number of granted rows that
  *never* failed is indeed bounded (`FreeQuotaHolds`). The number of granted rows that are not failed *right now* can
  pass the quota: the completion webhook updates a row whatever its status, so a good report that arrives after a bad one
  brings a failed row back after its place was given away. `LateReportOverruns` is a concrete run; `WithinUnlessOverrun`
  says, for every step, that this is the only way. (The code's own count, `CompedRows`, is not limited to granted rows: it
  takes in every free row that is not failed, for example one that was refused and whose delete went wrong.)
- `internal/engine/consolation.go:10-12` says every team that plays round 1 gets at least two matches. That holds if and
  only if two or more first-round matches are played (`OpenersPlayTwiceUnless`); with p teams and 2^k lines,
  p - 2^(k-1) are (`LosersInOpening`), so it fails exactly for fields of one more than a power of two
  (`OneMoreThanAPower`), where the one first-round loser is out after a single match (`LoneLoserPlaysOnce`). `ThreeTeams`
  is the smallest such field with a bye.
- `internal/engine/double_elim.go:13-16` has the drops come around so that a team does not immediately face its own
  region again. In a bracket of eight lines or more that holds of every winners-round-2 loser but one: with five teams
  nobody comes up to meet the loser of match 0, who skips on and can face a team it has already played
  (`SecondRoundRematch`, `FiveMeetAgain`).

## Model

| member | source | states |
|---|---|---|
| Powers.NextPow2 | internal/engine/bracket.go:100-106 | the least power of two that is at least n |
| Powers.ILog2 | internal/engine/bracket.go:108-114 | the exponent: 2^k <= n < 2^(k+1), and 0 for n below 2 |
| SeedOrder.Generate | internal/engine/bracket.go:116-126 | line i holds the seed the doubling rule puts there, for every power of two |
| SeedOrder.OrderIsPermutation | internal/engine/bracket.go:116-126 | each seed 1..2^k stands on exactly one line |
| SeedOrder.OneTopSeedPerBlock | internal/engine/bracket.go:116-126 | every aligned block of 2^j lines holds exactly one of the top 2^(k-j) seeds, at its head |
| SeedOrder.EightLines | internal/engine/bracket.go:116-126 | eight lines hold seeds 1, 8, 4, 5, 2, 7, 3, 6 |
| Bracket.CreateRounds | internal/engine/bracket.go:41-55 | round 1 is seated from the seed order, later rounds are empty |
| Bracket.LinkRounds | internal/engine/bracket.go:57-64 | every match but the final feeds the next round, its slot halved, its side by parity |
| Bracket.Advance | internal/engine/bracket.go:82-98 | resolves a bye, seats its winner in the fed match, and cascades while the fed match is itself a bye |
| Bracket.AdvanceNeverCascades | internal/engine/bracket.go:82-98 | when the fed match holds no bye, one call resolves one match and writes one seat |
| Bracket.ResolveOne | internal/engine/bracket.go:66-73 | resolving the next bye turns the bracket with s byes resolved into the one with s + 1 |
| Bracket.Generate | internal/engine/bracket.go:26-80 | the whole bracket, match by match, for every number of entrants |
| Bracket.OpeningSides | internal/engine/bracket.go:32-46 | no first-round match of two or more entrants has two byes, and only the second side can be one |
| Bracket.ByesGoToTopSeeds | internal/engine/bracket.go:66-73 | byes fall exactly to seeds 1..n-p |
| BracketTable.MatchByMatch | internal/engine/bracket.go:26-80 | round 1 is between seeds that add up to the size plus one, the better one on side 1; winner of slot s goes to slot s / 2, side by parity; later seats hold whoever a bye let through |
| BracketTable.InADraw | internal/engine/bracket.go:26-80 | the same of a bracket inside a larger draw: which matches are left to play, who is seeded where, where winners go |
| Play.GameKeepsSound | internal/service/service.go:9387-9403 | playing any ready match keeps every team in exactly one place and every seat filled by its one producer |
| Play.RunIsSound | internal/service/service.go:9387-9403 | the same after any legal sequence of games |
| Play.NeverStalls | internal/service/service.go:9387-9403 | in a wired plan, while a match is unplayed some match is ready |
| Play.ReadyAtLast | internal/service/service.go:9387-9403 | when every winner but one match's goes on, that match can only be called after all the others |
| Play.CanBePlayedOut | internal/service/service.go:9387-9403 | from any sound state there is a way to play every remaining match |
| SingleElimination.DrawIsWired | internal/engine/bracket.go:57-73 | each seat is a seed or has exactly one feed, and feeds go to later rounds |
| SingleElimination.EveryoneButTheChampionLosesOnce | internal/engine/bracket.go:26-80 | play of the generated bracket never stalls; once over, p - 1 games were played and everyone but the champion lost exactly once |
| Favourites.FavouritesMeetMirrored | internal/engine/bracket.go:41-73 | in every run of the generated bracket in which the better seed wins each call, the two seeds of a match of round r add up to n / 2^(r-1) + 1, byes or not |
| Relabel.Number | internal/engine/double_elim.go:210-230 | maps each round present to its rank among those present |
| Relabel.RankKeepsOrder | internal/engine/double_elim.go:226-230 | renumbering keeps the order of rounds |
| Relabel.NoGaps | internal/engine/double_elim.go:226-230 | every number from 1 to the count of rounds present is taken |
| Collapse.ComeAroundInvolution | internal/engine/double_elim.go:142-145 | each major round's drop permutation undoes itself, so it is a bijection |
| Collapse.FeedIsRight | internal/engine/double_elim.go:166-198 | the feed written for a team is the seat where, byes skipped, it really turns up |
| Collapse.EachSideFedOnce | internal/engine/double_elim.go:173-178 | each side of each emitted match is the destination of exactly one producer |
| Collapse.ChampionFedOut | internal/engine/double_elim.go:188-192 | exactly one producer's feed leaves at the top |
| Collapse.EveryDropperPlays | internal/engine/double_elim.go:180-186 | with another dropper about, no dropper leaves at the top without playing |
| SingleElimination.Tag | internal/engine/double_elim.go:81-93 | every bracket match, with its group and the feed of its final |
| DoubleElim.LbMatchCountIsWidth | internal/engine/double_elim.go:49-51 | the shifted count is the number of matches in each losers round |
| DoubleElim.TagWinners | internal/engine/double_elim.go:81-93 | the winners bracket with its final fed to side 1 of the grand final |
| DoubleElim.AddTwoTeamFinal | internal/engine/double_elim.go:97-103 | with two lines, the loser of the one match is side 2 of the grand final unless it was a bye |
| DoubleElim.LoserToken | internal/engine/double_elim.go:106-115 | a bye drops nobody |
| DoubleElim.DropOpening | internal/engine/double_elim.go:128-132 | losers round 1 takes two neighbouring round-1 losers |
| DoubleElim.DropMajor | internal/engine/double_elim.go:133-147 | a major round takes one winners-round loser in each match, reversed or half-shifted |
| DoubleElim.SeedIncoming | internal/engine/double_elim.go:124-149 | the drops of every round are waiting on the seats the come-around rule names |
| DoubleElim.HandleMatch | internal/engine/double_elim.go:169-197 | one match: emit or collapse, write the two feeds, hand the outcome on |
| DoubleElim.FlowMatch | internal/engine/double_elim.go:168-198 | one match further, plan and waiting tokens are the closed form |
| DoubleElim.FlowRound | internal/engine/double_elim.go:166-199 | one round further, the same |
| DoubleElim.FlowLosers | internal/engine/double_elim.go:166-199 | after the flow the matches emitted and the feeds written are the closed form |
| DoubleElim.Renumber | internal/engine/double_elim.go:212-242 | losers rounds and all feeds into them are renumbered together, nothing else changes |
| DoubleElim.LbRoundCount | internal/engine/double_elim.go:244-252 | the highest losers round in the plan |
| DoubleElim.Generate | internal/engine/double_elim.go:66-208 | the whole plan, match by match, for every number of entrants |
| DoubleElimPlay.StructuralPlanIsWired | internal/engine/double_elim.go:105-201 | before renumbering, each unseeded seat has exactly one producer and every feed hits an emitted match |
| DoubleElimPlay.PlanIsWired | internal/engine/double_elim.go:66-208 | the same of the finished plan, after renumbering, under every bye pattern |
| DoubleElimPlay.LosersRoundsAreContiguous | internal/engine/double_elim.go:203-242 | a losers round number occurs exactly when it is between 1 and the round count |
| LosersTable.LosersBracket | internal/engine/double_elim.go:105-242 | for any field: losers round 1 has a match where two neighbouring first-round matches are played, round 2 where one is, later rounds have all; and where each winner goes |
| LosersTable.LosersDrop | internal/engine/double_elim.go:105-242 | for any field: the seat the loser of each winners match drops into, round by round, reversed or half-shifted, byes skipped |
| LosersTable.TwoTeams | internal/engine/double_elim.go:97-103 | with two teams both meet again in the grand final |
| DoubleElimPlay.FinalComesLast | internal/engine/double_elim.go:66-208 | the grand final can be called if and only if every other match has been played |
| DoubleElimPlay.EveryRunReachesTheFinal | internal/engine/double_elim.go:66-208 | play never stalls; whenever the grand final can be called, 2p - 3 games are played, side 1 is unbeaten, side 2 lost once, all others twice |
| DoubleElimPlay.MatchesToPlay | internal/engine/double_elim.go:66-208 | exactly 2p - 2 matches are not resolved by a bye |
| History.NotMetBefore | internal/service/service.go:9387-9403 | teams whose possible pasts share no match have not met in any run |
| ComeAroundDrops.DropsApart | internal/engine/double_elim.go:134-147 | nobody who can sit opposite a winners-round-2 or -3 drop comes from the dropper's own part of the bracket |
| ComeAroundDrops.LandsApart | internal/engine/double_elim.go:134-198 | the same at the seat it really takes once byes are skipped, in a bracket of 8 lines or more (round 2, but for match 0 of a field of five) or of 32 or more (round 3) |
| ComeAroundDrops.NoRematchOnTheDrop | internal/engine/double_elim.go:134-242 | in any run of the finished plan, such a loser is about to meet, in its first match after the drop, a team from another part of the bracket that it has not met |
| FiveTeams.SecondRoundRematch | internal/engine/double_elim.go:134-242 | with 8 lines or more, no run has the loser of a winners-round-2 match meet somebody again in its first match after the drop, if and only if it is not match 0 of a field of five |
| FiveTeams.FiveMeetAgain | internal/engine/double_elim.go:166-198 | with five teams, four calls lead to such a rematch |
| ConsolationTree.MeetPair | internal/engine/compass.go:270-297 | one pair of tokens: emit or collapse, record drops and feeds |
| ConsolationTree.FillLane | internal/engine/compass.go:250-259 | the lane's tokens, padding as byes, and how many are real |
| ConsolationTree.FlowLane | internal/engine/compass.go:264-300 | with d droppers exactly max(d - 1, 0) matches, in closed form |
| ConsolationTree.RenumberTree | internal/engine/compass.go:302-330 | match rounds, feeds and drops renumbered together |
| ConsolationTree.Build | internal/engine/compass.go:229-331 | no tree below two droppers; otherwise the closed-form tree with d - 1 matches |
| ConsolationTree.GenerateConsolation | internal/engine/consolation.go:49-150 | the back-draw of a bracket: the same tree over the first-round losers, empty below size 4 |
| ConsolationTree.EverySideFilledOnce | internal/engine/compass.go:279-296 | each side of each match is filled by exactly one drop or feed |
| ConsolationTree.EveryFeedHitsAMatch | internal/engine/compass.go:285-293 | every drop and every winner feed names a side of a match of the tree |
| ConsolationTree.FeedsGoForward | internal/engine/compass.go:290-291 | a winner goes to a match of the tree in a strictly later round |
| ConsolationTree.RoundsAreContiguous | internal/engine/compass.go:302-329 | round numbers are exactly 1..N |
| ConsolationTree.EveryDropperEnters | internal/engine/compass.go:287-289 | with two or more droppers, each dropper and nobody else has an entry in the tree |
| ConsolationTree.EntersAtOneSeat | internal/engine/compass.go:285-293 | a drop is recorded at a seat if and only if its team sits there |
| ConsolationTree.RecordedOnce | internal/engine/compass.go:285-293 | no dropper is recorded at two seats |
| ConsolationTree.LoneDropperIsOut | internal/engine/consolation.go:70-112 | below two droppers the tree is empty and the lone dropper has no entry |
| ConsolationTree.AllEnterUnlessAlone | internal/engine/consolation.go:70-112 | every dropper has an entry if and only if there is not just one |
| ConsolationTree.OneFinal | internal/engine/compass.go:198-207 | exactly one match has no winner feed |
| DropTree.MatchesOfTree | internal/engine/compass.go:264-297 | the tree has a match exactly where two halves of its places meet that both hold a dropper |
| DropTree.DropperEntersFirst | internal/engine/compass.go:285-289 | a dropper enters at the first match on its way up, on the side of its half; left out only when there is none |
| DropTree.WinnerGoesToFirst | internal/engine/compass.go:290-296 | a winner goes to the first match on its way up; the final is the one with none |
| DropTree.LevelsInOrder | internal/engine/compass.go:302-329 | renumbering keeps the order of the levels |
| BackDraw.ByeSlots | internal/service/service.go:8203-8209 | a first-round match is a bye exactly when it was resolved at generation |
| BackDraw.Persist | internal/service/service.go:8198-8260 | the bracket with its back-draw in closed form: the tree's matches and the loser feeds into them, for every number of entrants |
| BackDrawTable.MainLosersGo | internal/service/service.go:8198-8260 | a first-round loser enters the back-draw at the first place where its half meets another with a loser; every other loser of the main draw is out |
| BackDrawTable.BackDrawMatches | internal/service/service.go:8198-8260 | the back-draw has a match wherever two such halves meet, in the round of its level, its winner going to the next such place |
| BackDrawTable.NoOtherMatches | internal/service/service.go:8198-8260 | and no other match |
| BackDrawPlay.BackDrawIsWired | internal/service/service.go:8198-8260 | bracket and back-draw together: each seat has exactly one producer, each feed hits a match, and links are acyclic |
| BackDrawPlay.BackDrawNeverStalls | internal/engine/consolation.go:49-150 | in every run play never stalls, and when all is played everybody is out |
| BackDrawPlay.LosersInOpening | internal/engine/consolation.go:64-71 | p teams in 2^k lines play exactly p - 2^(k-1) first-round matches |
| BackDrawPlay.EveryLoserEntersUnless | internal/engine/consolation.go:10-12 | every first-round loser has an entry in the back-draw if and only if p - 2^(k-1) is at least 2 |
| BackDrawPlay.OneMoreThanAPower | internal/engine/consolation.go:10-12 | that fails exactly for fields of 2^m + 1 teams |
| BackDrawPlay.LoneLoserPlaysOnce | internal/engine/consolation.go:10-12 | in such a field a run in which somebody who played round 1 is out after one match |
| BackDrawPlay.OpenersPlayTwiceUnless | internal/engine/consolation.go:10-12 | in every run whoever plays round 1 and is out has played twice, if and only if p - 2^(k-1) is at least 2 |
| BackDrawPlay.ThreeTeams | internal/engine/consolation.go:10-12 | with three teams it fails |
| Compass.TagEast | internal/engine/compass.go:92-105 | the East bracket, tagged |
| Compass.AddMatches | internal/engine/compass.go:126-133 | a direction's matches join the plan and can be found by their coordinates before renumbering |
| Compass.WireDrops | internal/engine/compass.go:134-139 | each dropping parent match gets its loser feed, no other match changes |
| Compass.FeedFrom | internal/engine/compass.go:119-141 | one direction built from one parent round, or nothing below two droppers |
| Compass.EastParents | internal/engine/compass.go:145-153 | byes drop nobody |
| Compass.DirectionParents | internal/engine/compass.go:155-158 | a direction's own matches, read by coordinates before renumbering |
| Compass.FeedEast | internal/engine/compass.go:160-172 | every East round before the final feeds its direction |
| Compass.FeedSideways | internal/engine/compass.go:173-193 | a direction feeds its child from a round before its own final |
| Compass.Generate | internal/engine/compass.go:86-196 | the whole plan, match by match, for every number of entrants |
| CompassDraw.IdOfInjective | internal/engine/compass.go:302-329 | renumbering never gives two matches of a direction the same name |
| CompassTable.EastLosersGo | internal/engine/compass.go:24-35 | East losers go West, North, Northeast and East-R4 on after rounds 1, 2, 3 and 4 on, if and only if their round has another loser |
| CompassTable.DirectionLosersGo | internal/engine/compass.go:174-189 | West round 1, West round 2, North round 1 and South round 1 feed South, Southwest, Northwest and Southeast, if and only if the round has another loser; all other losers of a direction are out |
| CompassTable.EntersDirection | internal/engine/compass.go:116-144 | a loser enters its direction at the first place where its half of the feeding round meets another with a loser |
| CompassTable.DirectionMatches | internal/engine/compass.go:116-144 | a direction has a match exactly where two such halves meet, its winner going to the next such place |
| CompassTable.FullTable | internal/engine/compass.go:81-192 | a full field: the matches of every bracket, and the seat winner and loser of each go to |
| CompassTable.EightTeams | internal/engine/compass.go:22-24 | eight teams make East, West, North and South and nothing else |
| CompassTable.SixteenTeams | internal/engine/compass.go:22-24 | sixteen make the eight brackets of the compass and nothing else |
| CompassPlay.PlanIsDraw | internal/engine/compass.go:86-196 | the generated plan, seen as a playable draw |
| CompassPlay.CompassIsWired | internal/engine/compass.go:119-193 | for every field size each seat has exactly one producer, each feed hits an emitted match, and links are acyclic |
| CompassGames.OneFinalEach | internal/engine/compass.go:115-141 | each direction that formed has exactly one final |
| CompassGames.CompassNeverStalls | internal/engine/compass.go:86-196 | for every field size play never stalls, and when all is played everybody is out |
| CompassGames.EveryonePlaysEnough | internal/engine/compass.go:8-24 | in a full field of 2^m nobody is out before playing min(m, 4) matches |
| Layout.CheckLayout | internal/engine/rotation.go:201-221 | true exactly when courts are numbered 1..n and nobody, seated or benched, is blank or there twice |
| Layout.LayoutOK | internal/engine/rotation.go:191-193 | the same with no bench |
| Layout.SeeAll | internal/engine/rotation.go:207-219 | one list walked with what was seen before: true exactly when everything so far is named and different |
| Layout.ProperIsBag | internal/engine/rotation.go:201-221 | the check depends only on who is there how often |
| Seeding.CourtsFor | internal/engine/rotation.go:77-81 | as many full courts as players allow, up to a positive cap |
| Seeding.SeedCourts | internal/engine/rotation.go:76-94 | court k holds the k-th four by rating, first and third against second and fourth, the rest wait in order |
| Seeding.RatedFloorIsSafe | internal/engine/rotation.go:76-94 | different, named players open a safe layout that holds each of them once |
| Lineup.RatedLine | internal/engine/rotation.go:69-94 | read court by court in opening order, and then the bench, the floor is the list: a stronger player is never on a lower court, third partners first, and the bench keeps the order |
| Seeding.PlacePlayers | internal/engine/rotation.go:138-158 | each court keeps the first four put there; the evicted queue behind the unplaced |
| Seeding.FillGaps | internal/engine/rotation.go:160-168 | gaps are filled from the queue, top court first |
| Seeding.TopUp | internal/engine/rotation.go:163-168 | one court topped up to four from the queue, no other court touched |
| Seeding.OpenCourts | internal/engine/rotation.go:170-178 | each court's four as first and third against second and fourth |
| Seeding.SeedPlacedCourts | internal/engine/rotation.go:125-180 | the whole opening, court by court, and the bench |
| Seeding.EverybodySomewhere | internal/engine/rotation.go:138-158 | everybody keeps a seat or is in the queue, once |
| Seeding.PoolIsEnough | internal/engine/rotation.go:160-168 | the queue is long enough to fill every court |
| Seeding.PlacedFloorIsSafe | internal/engine/rotation.go:103-124 | however people were placed, nobody vanishes or doubles and the layout is safe |
| Seeding.PlacementsAreHonoured | internal/engine/rotation.go:106-124 | whoever is among the first four put on a running court opens on that court |
| Lineup.GapsFillInOrder | internal/engine/rotation.go:143-165 | of two who keep no court, an unplaced before an evicted and otherwise the earlier in the list is never on a lower court, nor behind on the same one, nor waiting while the other plays |
| Lineup.KeepersComeFirst | internal/engine/rotation.go:136-175 | on a court some were put on they come first, in the order of the list, and those who fill up behind them |
| Lineup.NoPlacementsIsRating | internal/engine/rotation.go:96-180 | with nobody put anywhere the floor is the one the rating order opens |
| Lineup.TooFewToPlay | internal/engine/rotation.go:126-136 | with fewer than four everybody waits, in the order of the list |
| Rotation.Split | internal/engine/rotation.go:254-273 | team B of a court is entered as winners and team A as losers when the last result for it says "b", the other way round otherwise |
| Rotation.Outcomes | internal/engine/rotation.go:254-257 | a court's last result counts |
| Rotation.LastResultCounts | internal/engine/rotation.go:254-262 | team B is taken for the winner if and only if the last entry for the court says "b" |
| Rotation.ByeSwap | internal/engine/rotation.go:275-296 | up to two bottom losers go to the back of the queue, its front takes their place |
| Rotation.NextRound | internal/engine/rotation.go:235-340 | a refused layout comes back as it was; otherwise every court and the queue as the movement rule says, in both modes |
| Rotation.MoveKeepsEveryone | internal/engine/rotation.go:298-339 | a round keeps the same people, the number of courts and the length of the bench |
| Rotation.MoveKeepsOK | internal/engine/rotation.go:235-340 | a safe layout stays safe |
| River.WinnersClimb | internal/engine/rotation.go:223-226 | from the results: whoever the last entry says won is one court up after the round; the top court's winners stay |
| River.LosersGo | internal/engine/rotation.go:39-50 | from the results: the losers are one court down, or hold their court while the top court's losers fall to the bottom |
| River.ResultsMovePlayers | internal/engine/rotation.go:251-340 | from the results, seat by seat: where the two winners and the two losers of each court sit next in either mode, and at the bottom who steps on and in which order who steps off joins the queue |
| River.ModesAgreeOnTwoCourts | internal/engine/rotation.go:51-53 | on one or two courts both modes give the same round |
| River.EveryoneGetsANewPartner | internal/engine/rotation.go:226-228 | on a safe layout no two people who just were partners are partners again |
| River.RefusalIsExact | internal/engine/rotation.go:244-250 | with a court in play the courts come back unchanged if and only if the layout was unsafe |
| River.OnlyBottomLosersStepOff | internal/engine/rotation.go:13-17 | somebody seated who ends on the bench is on the team that lost the bottom court by its last result |
| River.QueueMovesOn | internal/engine/rotation.go:280-296 | the first two in the queue are seated on the bottom court, everybody else moves up two |
| River.WaitsExactly | internal/engine/rotation.go:275-296 | place i in the queue sits out i / 2 more rounds and plays in the next, whatever the results and modes |
| River.NobodyWaitsLong | internal/engine/rotation.go:19-20 | with B on the bench nobody on it waits more than B / 2 rounds, rounded up |
| FairPass.StableOrderInOrder | internal/engine/rotation.go:445-460 | the order is complete, sorted by key, and stable |
| FairPass.SwapsFrom | internal/engine/rotation.go:475-491 | how many swaps are made: each narrows the gap, and the next one would not |
| FairPass.SetSeat | internal/engine/rotation.go:462-473 | one seat changes hands, every other seat stays |
| FairPass.ListSeats | internal/engine/rotation.go:428-437 | every seat, court by court |
| FairPass.Requeue | internal/engine/rotation.go:503-511 | the queue without those who came on, then those taken off |
| FairPass.SwapSeats | internal/engine/rotation.go:421-511 | seats and bench after the pass, those taken off at the back of the queue |
| FairPass.ChecksAreExact | internal/engine/rotation.go:396-413 | the checks before the pass let it run exactly when the round was not refused |
| FairPass.NextRoundFair | internal/engine/rotation.go:381-512 | a round and then the pass; a refused layout is left alone |
| FairNight.PassKeepsEveryone | internal/engine/rotation.go:462-511 | the pass only moves people between seats and bench |
| FairNight.OneSwap | internal/engine/rotation.go:478-491 | a swap takes off the player the order names, from the seat they still hold, and seats the one waiting |
| FairNight.PassKeepsOK | internal/engine/rotation.go:361-365 | a safe layout stays safe, with the same bench length |
| FairNight.NightIsSafe | internal/engine/rotation.go:235-512 | any mix of plain and fair rounds keeps full numbered courts, the same people once each, and both sizes |
| FairNight.NightFromRatings | internal/engine/rotation.go:76-94 | the same from a rating order |
| FairNight.NightFromPlacements | internal/engine/rotation.go:125-180 | the same from explicit placements |
| FairNight.FairRefusalIsExact | internal/engine/rotation.go:387-398 | the refusal signal of the fair round is exact too |
| FairNight.EverySwapNarrows | internal/engine/rotation.go:372-376 | each swap sends off somebody with more games than the one it brings on, so the seated total falls |
| FairNight.LeaversHavePlayedMore | internal/engine/rotation.go:372-376 | everybody sent off has played strictly more than everybody brought on |
| FairNight.MostPlayedLeaveFirst | internal/engine/rotation.go:438-451 | nobody still seated has played more than the one leaving; ties leave the lower court |
| FairNight.LeastPlayedComeFirst | internal/engine/rotation.go:453-460 | nobody still waiting has played less than the one coming on; ties go to the longer wait |
| FairNight.PassEvensOut | internal/engine/rotation.go:478-491 | either all min(2, bench) swaps are made or nobody waiting has played less than anybody seated |
| FairQueue.QueueAfterThePass | internal/engine/rotation.go:495-511 | from the floors before and after: those who waited and were not brought on stand first and keep their order, those taken off stand behind them in the order they left |
| FairQueue.UnknownCountsAsZero | internal/engine/rotation.go:414-419 | somebody the counts do not mention is treated as having played none |
| Circle.RoundRobin | internal/engine/schedule.go:104-131 | the rounds of the circle method, bye left out |
| Circle.PairAcross | internal/engine/schedule.go:116-122 | first against last, second against last but one, and so on, whoever meets the bye left out |
| Circle.StandsAt | internal/engine/schedule.go:124-128 | where each unit stands after r turns |
| Circle.OppositeOnce | internal/engine/schedule.go:115-129 | on an odd circle two places stand opposite in exactly one round |
| Circle.EveryPairMeetsOnce | internal/engine/schedule.go:104-131 | over the rounds every two units meet exactly once |
| Circle.NobodyTwiceInARound | internal/engine/schedule.go:116-122 | everybody plays once a round, except in the one round an odd player sits out |
| Circle.EvenRounds | internal/engine/schedule.go:104-131 | with an even number, game i of round r is between the i-th place and the i-th from the end, the first place fixed and the others moved r on |
| Circle.OddRounds | internal/engine/schedule.go:104-131 | with an odd number the same games in the same order, the one with the bye left out |
| Schedule.BoundedTarget | internal/engine/schedule.go:71-85 | at least 1, within the window when it is ordered, the natural count when that fits |
| Schedule.FitRounds | internal/engine/schedule.go:87-101 | cut short or cycled: round i is round i mod R |
| Schedule.CycleMeetings | internal/engine/schedule.go:96-99 | two units that meet once a cycle meet T / R times, once more if their round is in the part left over |
| Schedule.NameSides | internal/engine/schedule.go:141-149 | pairings of units as pairings of sides, round by round |
| Schedule.NamedRoundMeetings | internal/engine/schedule.go:141-149 | naming sides does not change who meets whom |
| Schedule.PlaceCourts | internal/engine/schedule.go:265-286 | game i gets slot i / courts and court i mod courts + 1, rounds are numbered |
| Schedule.NoCourtTwice | internal/engine/schedule.go:275-282 | no court takes two games in one slot |
| Schedule.SlotsFillUp | internal/engine/schedule.go:275-282 | a game waits for a later slot only when every court of the slot before is taken |
| Schedule.PlacementRoundTrip | internal/engine/schedule.go:265-286 | placement loses and changes no game |
| PoolPlay.DoublesFixed | internal/engine/schedule.go:133-151 | the circle method over pairs |
| PoolPlay.SinglesRoundRobin | internal/engine/schedule.go:103-131 | the circle method over players, each a side of one |
| PoolPlay.AutoPair | internal/engine/schedule.go:257-263 | neighbours become partners, an odd one out is left over |
| PoolPlay.GenerateSchedule | internal/engine/schedule.go:51-69 | the right generator, fitted and placed, for each format |
| PoolPlay.EveryPairMeetsEvenly | internal/engine/schedule.go:46-69 | fitted to T rounds from a cycle of R, every two units meet floor or ceiling of T / R times |
| PoolPlay.GamesOfRound | internal/engine/schedule.go:46-69 | game by game, for an even number of units: the first rounds of the schedule are the rounds of the circle |
| PoolPlay.RoundsComeAgain | internal/engine/schedule.go:96-99 | after a cycle the rounds come again |
| PoolPlay.NobodyTwice | internal/engine/schedule.go:46-69 | still nobody twice in a round after fitting |
| PoolPlay.SinglesAreEven | internal/engine/schedule.go:55-58 | both, for singles |
| PoolPlay.FixedPairsAreEven | internal/engine/schedule.go:59-66 | both, for fixed pairs |
| PoolPlay.NoPlayerTwice | internal/engine/schedule.go:103-149 | when nobody is on two sides no round uses a player twice; with an even number of sides each player on one plays exactly once |
| PoolPlay.FixedPairsUseNobodyTwice | internal/engine/schedule.go:133-151 | that for pairs that share no player |
| PoolPlay.SinglesUseNobodyTwice | internal/engine/schedule.go:103-131 | that for singles |
| PoolPlay.NeighboursAreProper | internal/engine/schedule.go:257-263 | pairing neighbours of different players gives pairs that share no player |
| PoolPlay.AutoPairsUseNobodyTwice | internal/engine/schedule.go:59-66 | so doubles with nobody's partner chosen use no player twice in a round |
| Mixer.PoolSorted | internal/engine/schedule.go:172-178 | the pool is everybody, fewest games first, by name among equals |
| Mixer.SortPool | internal/engine/schedule.go:172-178 | the pool |
| Mixer.FormTeams | internal/engine/schedule.go:186-202 | teams picked greedily, one player and the best partner left |
| Mixer.FindPartner | internal/engine/schedule.go:192-198 | the first best partner left |
| Mixer.PairTeams | internal/engine/schedule.go:204-241 | games picked greedily, and the counters after them |
| Mixer.FindOpponents | internal/engine/schedule.go:219-227 | the first best opponents left |
| Mixer.PlayNext | internal/engine/schedule.go:216-240 | one game and the counters after it |
| Mixer.PlayRound | internal/engine/schedule.go:172-242 | one round, empty when there are fewer than four |
| Mixer.DoublesRotating | internal/engine/schedule.go:154-245 | each round is the one the mixer makes from the counters the rounds before left |
| MixerPlay.ActiveIsFull | internal/engine/schedule.go:179-180 | the active players are different and as many as fill whole fours |
| MixerPlay.PartnerIsBest | internal/engine/schedule.go:192-198 | nobody left would have been a better partner |
| MixerChoice.PartnersAreFresh | internal/engine/schedule.go:186-202 | from the rounds before: the first player of a side has partnered the second no more often than anybody on a side formed later, if as often has faced them no more often, and if that too the second is first by name |
| MixerChoice.SidesInOrder | internal/engine/schedule.go:172-202 | the first of a side has played less so far than the second, or as often and is first by name |
| MixerPlay.OpponentsAreBest | internal/engine/schedule.go:219-227 | no team left would have been better opponents |
| MixerChoice.OpponentsAreFresh | internal/engine/schedule.go:204-227 | from the rounds before: of two games of a round, side A of the earlier was up first and has faced its opponents no more often, four oppositions added up, than either side of the later; ties by name |
| MixerChoice.SideAIsUpFirst | internal/engine/schedule.go:214-230 | side A of a game was formed before side B |
| MixerPlay.TeamsSeatEverybody | internal/engine/schedule.go:186-202 | every active player is on exactly one team |
| MixerPlay.EveryTeamPlaysOnce | internal/engine/schedule.go:214-241 | every team plays once, and the counters book exactly the games that come out |
| MixerPlay.SittersHavePlayedMore | internal/engine/schedule.go:172-180 | whoever sits out has played at least as often as whoever plays |
| MixerChoice.WhoSitsOut | internal/engine/schedule.go:172-180 | from the rounds before: whoever sits out has played more often than whoever plays, or as often and comes later by name |
| Names.LessAtFirstDifference | internal/engine/schedule.go:247-255 | the order of names is decided at the first letter in which they differ |
| MixerPlay.EveryRoundSeatsFours | internal/engine/schedule.go:179-241 | a round seats 4 * floor(n / 4) different players once each and nobody else |
| MixerPlay.NobodyPullsAhead | internal/engine/schedule.go:170-243 | after every round any two players are at most one game apart |
| MixerPlay.EverybodyPlaysTheAverage | internal/engine/schedule.go:170-243 | after r rounds everybody has played the floor or the ceiling of the average |
| MixerBooks.KeyIsTheCouple | internal/engine/schedule.go:161-168 | two couples share a counter exactly when they are the same two players, either way round |
| MixerBooks.GamesAreBooked | internal/engine/schedule.go:231-237 | the counters move by exactly the partnerships and oppositions of the games made |
| MixerBooks.CountersAreHistory | internal/engine/schedule.go:155-168 | before every round the counters say how often any two players have partnered and faced each other so far |
| Analyses.Store.CompedAnalysisCount | internal/service/analyses.go:218-227 | the number of the user's free rows that are not failed now |
| Analyses.Store.Insert | internal/service/analyses.go:170-185 | a new row awaiting payment, under a new id |
| Analyses.Store.Delete | internal/service/analyses.go:200 | the row is gone, no other row changes |
| Analyses.Store.SaveVideo | internal/service/analyses.go:271-275 | the row is processing and carries the vendor's id |
| Analyses.Store.Claim | internal/service/analyses.go:235-249 | the row moves to processing only while it awaits payment, and the caller learns whether it did |
| Analyses.Store.SetStatus | internal/service/analyses.go:279-288 | the status is overwritten whatever it was |
| Analyses.Service.MarkAnalysisPaid | internal/service/analyses.go:234-277 | what one call leaves behind in every case, whichever of its statements fail |
| Analyses.FirstDelivery | internal/service/analyses.go:234-277 | a first report leaves the row processing with its video id, or failed; nothing else changes |
| Analyses.RedeliveryIsHarmless | internal/service/analyses.go:235-249 | a payment reported again changes nothing, whatever fails the second time |
| Analyses.Service.StartAnalysisCheckout | internal/service/analyses.go:114-213 | with any number of rival requests between count and insert and between insert and recount, whichever statements fail: what the caller is told, and the table after |
| Analyses.LoneRequest | internal/service/analyses.go:114-213 | a request nobody races is served free if and only if the allowance is unlimited or not used up, and is to be paid otherwise |
| Analyses.RacedRequest | internal/service/analyses.go:118-204 | a request that races others keeps its row if and only if all of them fit the quota |
| Analyses.RivalsCount | internal/service/analyses.go:188-202 | every free row slipped in is seen by the recount |
| AnalysisRuns.StepKeeps | internal/service/analyses.go:114-288 | every statement of every program keeps the invariant |
| AnalysisRuns.EveryRunIsSound | internal/service/analyses.go:114-358 | the invariant holds in every interleaving |
| AnalysisRuns.RecountFits | internal/service/analyses.go:188-202 | a row is admitted only when everything kept so far and this row fit the quota |
| AnalysisRuns.ClaimKeeps | internal/service/analyses.go:241-248 | a won claim keeps the invariant: one holder for the row, which was never submitted before |
| AnalysisRuns.FreeQuotaHolds | internal/service/analyses.go:188-202 | in every interleaving at most N rows pass the recount and never fail |
| AnalysisRuns.SubmittedAtMostOnce | internal/service/analyses.go:235-249 | however often and concurrently a payment is reported, each row is submitted at most once |
| AnalysisRuns.WithinUnlessOverrun | internal/service/analyses.go:323-355 | one step takes the rows granted and not failed now past the quota if and only if it is a late good report on a failed row with the quota full |
| AnalysisRuns.QuotaAtEveryMoment | internal/service/analyses.go:188-202 | without such a report the quota holds at every moment |
| AnalysisRuns.LateReportOverruns | internal/service/analyses.go:323-355 | a concrete run with quota one and two granted rows not failed |
| FreeService.LoneRunIsServed | internal/service/analyses.go:114-277 | statement by statement, from any state: a user with a place left who is not raced is granted a row and its video is submitted once and recorded |

## Left out

- The order in which a generator lists its matches, and the list of bracket labels a compass returns: the model keeps the set of matches by coordinates.
- The conditional second game of a double-elimination grand final, and everything else the service does when a score arrives: a run stops at the first grand-final game.
- Rematches in later losers rounds, rematches on the drop of winners-round-2 losers in a bracket of 4 lines and of winners-round-3 losers in one of 16 or fewer, and the fairness figures in comments: the repository measures them but does not guarantee them.
- Two matches for teams with a first-round bye: the source itself disclaims it, and `OpenersPlayTwiceUnless` is about the teams that play round 1.
- BackDraw.Persist: row ids, court and status columns and the batching of statements are not part of the model; a match is its tier, round and slot.
- ConsolationTree.GenerateConsolation: takes the bye pattern as a list instead of a callback, and requires the size to be a power of two, as the source demands.
- Formatted keys and names: a player id containing `|` could make two couples share a counter in the source, and the model keeps couples apart; ids are otherwise assumed different and non-empty where a lemma says so.
- The library's sort: a stable insertion order stands for it. In the mixer ties cannot occur between different players, so any sort gives the same pool.
- Seats in the equal-court-time pass are numbered four to a court instead of by court and index.
- PoolPlay.GenerateSchedule: also returns the pairs it used, so that its contract can speak about them.
- Analyses.Service.StartAnalysisCheckout: whether the request is in order and whether the payment gateway answers are inputs; what the URL and size checks test, the e-mail lists and the prices are not part of the model. Rivals are free requests of the same user that insert and do nothing else meanwhile; every other interleaving is covered by the step model. A statement that fails changes nothing.
- The step model has one allowance per user for the whole run, and rows carry only what the protocol reads.
- Notifications: whether a user is told once depends on a read separate from the update, so nothing is claimed.
- The service-side comparison of layouts and the session timers: refusal is stated as equality of courts.
- HTTP handlers, authentication, pages and clients of other services: they hold no engine state.
