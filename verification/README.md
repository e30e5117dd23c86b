# Verified models of the chess platform's core

A Dafny model of the parts of the platform whose correctness is hardest to see by reading: the
variant-aware chess rules engine, the single-flight analysis protocol, and five stateful components.
`dafny verify dfyconfig.toml` checks everything.

**The rules engine** (`packages/chess-core`). `ChessTypes`, `Geometry` and `Castling` hold the 0x88 board and
its entities. `Attack`, `MoveGen`, `Play`, `Legality`, `Validity` and `Status` give each rule twice:
declaratively (what a man bears on, which moves exist, what validity means) and as the program does it (the
outward-looking attack test, the list-building loops of `MoveGenerator`, board writes in place), and prove the
two equal. `Bearing` and `Rules` state the moves, the legal ones, the board they leave and what the validator
accepts once more in files and ranks, as Article 3 of the FIDE Laws does, and prove that the program follows
them; `Bookkeeping`, `Crazyhouse` and `Endings` do so for clocks, pockets and results. On top of them stand the
whole-game results: legal play keeps positions well formed and valid (`LegalPlay`, with the exceptions in
`StrayEnPassant`), castling rights in step with the board exactly as long as no move strands one (`Rights`),
castling conserves the men (`CastlingMoves`), dead positions stay dead (`DeadPosition`, Article 5.2.2 of the
FIDE Laws of Chess), FEN round trips (`Fen`, `CastlingField`, `FenRoundTrip`, `FenCodec`, `FenGaps`; what is
read and written, character by character, in `FenReading`, `FenLayouts` and `FenWriting`; section 16.1 of the
PGN Specification), repetition keys of one game are equal exactly for the same position, which then has the same
future (`Repetition`, Articles 9.2.2 and 9.2.3), moves come back from UCI (`MoveIdentity`), and SAN names one
move all through a game and writes no more of its origin than it needs (`San`, `Notation`, section 8.2.3 of the
PGN Specification).

**Single flight** (`SingleFlight`). The analysis orchestrator as a transition system over arrivals, aborts,
promise settlement, the cleanup callback and the consumer callbacks, in any interleaving, together with the
class whose methods take those steps. `Delivery` says from the events alone what every consumer is told.

**Stateful components.** `Community` (teams, ownership, join requests), `Sessions` (refresh-token rotation
families), `RateLimit`, `LruCache`, `Breaker` and `Failover` (the AI orchestrator), `BotPooling` and
`CorrelationPooling` (anti-cheat aggregates). Each has the source's class or loop as imperative code, tied
to a specification function, and theorems over whole runs of that specification. `Policy`, `TokenLife`, `IdealLimiter`,
`Routing`, `Pacing` and `Screening` say what each of them answers in terms a caller can check.

`Common`, `Text` and `Positions` hold shared datatypes, string lemmas and boards written down man by man.

## Where the obvious claim is false

- *Rights in step with the board.* A comment in the castle generator (movegen.ts:380-381) says rights are kept
  in step on every move. An Atomic explosion clears no right (`Rights.RightsFallOutOfStep`). Neither does an
  en-passant capture look at the square it empties: neither reader nor validator checks the en-passant field, and a
  field behind one's own rook lets a pawn take that rook, in standard chess too (`StrayEnPassant.RookTakenEnPassant`).
  `Rights.RightsInStepExactly` says exactly when a right falls out of step, with no assumption on that field;
  `Rights.RightsStayInStepExactly` and `Rights.RightsStayInStep` say it for whole games, outside Atomic by the first
  move alone. Such a right gives no castle while its rook is away (`Rights.CastleNeedsItsRook`,
  `Rights.StrandedRightIsHarmless`). Only a dropped rook brings it back (`Rights.OnlyADropRevives`), and in
  Crazyhouse one can castle with that (`StrayEnPassant.CastlesWithADroppedRook`).
- *FEN gives back every position.* Of the positions that are read from a FEN and accepted, all come back but two
  kinds (`FenRoundTrip.AcceptedRoundTrip`). A negative halfmove clock is taken in Three-Check from a FEN without
  counters, and refused beside the counter field the writer adds (`FenGaps.NegativeClockIsLost`). An en-passant field
  may name a square off the board, which is written as another one (`FenGaps.EpOffTheBoardIsLost`). Positions reached
  by play can fail as well: the writer prints rights from the board, so a right without its rook is lost
  (`FenGaps.StrandedRightIsLost` in Atomic, `StrayEnPassant.RooklessRightIsLost` in standard chess and three other
  variants), and the reader refuses more than three delivered checks, which playing on after a decided game can give
  (`FenGaps.FourthCheckIsLost`). `FenRoundTrip.FenRoundTripExactly` has the exact condition for all states.
- *Exactly one owner per team.* True when calls do not overlap (`Community.ExactlyOneOwner`). Answering a join
  request reads the request before an `await` and writes role `member` after it, so when the player has joined
  and been handed the team in between, the team is left without an owner: `Community.TeamCanLoseItsOwner` is such
  a run. `Community.OverlappingCalls` shows that nothing else can do so, and that two owners are never possible.
- *Legal play keeps what the validator accepts.* The validator does not look at the en-passant field. A field that
  names the square of the mover's own king lets a pawn take it in Horde and Racing Kings, whose legality test does not
  ask for a king: `StrayEnPassant.KingTakenEnPassant` is such a position, read from its own FEN.
  `LegalPlay.StaysValidExactly` and `LegalPlay.GamesStayValid` say exactly when validity is kept.
- *SAN writes no more of the origin than it needs.* True of what can be moved on the board (`Notation.OriginTells`).
  The program counts a drop as one more man, which the `@` already tells apart, and takes it to stand beside the h-file:
  `Notation.NeedlessFile` has a lone knight written with its file, and `Notation.OriginIsStandardExactly` says exactly
  when that happens.

Two more failures concern hand-built states only. A castling right whose rook stands on the wrong side of its king
would not read back as itself; the reader produces none (`FenRoundTrip.ParsedRightsAreReadable`), and a right that
was on the proper side leaves it only by losing its rook or its king (`Rights.RightsInStepExactly`). Two rights of
one colour that name one rook would give two Chess960 castles one UCI spelling (`MoveIdentity.UciRoundTripExactly`);
no position that is read has them, and no game from it comes to them (`MoveIdentity.UciComesBackAlong`).

## Model

| member | source | states |
|---|---|---|
| Geometry.OnBoardIsMask | packages/chess-core/src/board.ts:9-11 | on the board means that the two mask bits of the index are clear, for every index one offset away from a square |
| Attack.ReachesBack | packages/chess-core/src/movegen.ts:95-117 | a slider that reaches a square along an offset is reached back along the opposite offset |
| Attack.IsSquareAttacked | packages/chess-core/src/movegen.ts:61-117 | the test that looks outward from the square answers yes exactly when some man of that side, looking forward, bears on it |
| Attack.FindKing | packages/chess-core/src/movegen.ts:49-55 | the loop finds the first square with that king, or -1 |
| Attack.ComputeInCheck | packages/chess-core/src/movegen.ts:120-127 | in check: there is a king, it is attacked, and in Atomic it is not connected to the other king |
| Bearing.RayIsLine | packages/chess-core/src/movegen.ts:95-117 | walking in steps of an offset reaches a square exactly when it lies that way, by files and ranks, with nothing between |
| Bearing.BearsByCoordinates | packages/chess-core/src/movegen.ts:202-240 | every man bears, by the offset tables, on exactly the squares it bears on by files and ranks |
| Bearing.AttackedIsThreatened | packages/chess-core/src/movegen.ts:61-117 | a square is attacked exactly when some man of that side bears on it by files and ranks |
| MoveGen.LeapsExact | packages/chess-core/src/movegen.ts:202-228 | the knight and king steps listed are exactly the offsets landing on the board and on no own man |
| MoveGen.RayExact | packages/chess-core/src/movegen.ts:245-269 | one sliding direction lists exactly the squares reached through empty squares, ending with an enemy man |
| MoveGen.PawnMovesExact | packages/chess-core/src/movegen.ts:155-200 | pushes, double pushes (also from the back rank for White in Horde), captures, promotions and en passant, and nothing else |
| MoveGen.DropsExact | packages/chess-core/src/movegen.ts:399-418 | exactly the drops of a kind in the pocket on an empty square, no pawn on the first or last rank |
| MoveGen.PseudoMovesExact | packages/chess-core/src/movegen.ts:139-243 | the generated list holds exactly the moves of the declarative rules, for every board, side and variant |
| MoveGen.AttackedIffCapturable | packages/chess-core/src/movegen.ts:61-243 | a square holding an enemy man is attacked by the side to move exactly when the generator lists an ordinary capture of that man landing there |
| MoveGenerator.GenerateSliding | packages/chess-core/src/movegen.ts:245-269 | the two nested loops produce the specified list, in the same order |
| MoveGenerator.GeneratePawnMoves | packages/chess-core/src/movegen.ts:155-200 | the pawn case of the switch produces the specified list, in the same order |
| MoveGenerator.CastlingSpanClear | packages/chess-core/src/movegen.ts:288-306 | both spans between origins and destinations are empty but for the castling king and rook |
| MoveGenerator.ComputeKingPathSafe | packages/chess-core/src/movegen.ts:321-332 | the king is safe on every square of its path, ends included; in Atomic a square beside the enemy king is safe |
| MoveGenerator.GenerateCastles | packages/chess-core/src/movegen.ts:347-397 | a castle is listed exactly when right, rank, files, rook, spans and king path allow it |
| MoveGenerator.GenerateDrops | packages/chess-core/src/movegen.ts:399-418 | the drop loops, with their set of kinds already offered, produce the specified list |
| MoveGenerator.GeneratePseudoLegal | packages/chess-core/src/movegen.ts:139-243 | the board loop and switch produce the specified list, in the same order |
| Rules.GeneratorFollowsTheRules | packages/chess-core/src/movegen.ts:139-418 | in every position the list holds exactly the moves of Article 3 of the FIDE Laws and the variants, written in files and ranks: pushes, double pushes and their ranks, captures, en passant, promotions and their ranks, steps, lines, castles and drops |
| Rules.DoublePushes | packages/chess-core/src/movegen.ts:166-178 | a double push is listed exactly for an own pawn on rank index 1 (White) or 6 (Black), in Horde also 0 for White, with the two cells ahead empty, to the second of them |
| Rules.CastlesOverSafeSquares | packages/chess-core/src/movegen.ts:321-332 | the king of a listed castle starts on, crosses and reaches no square the enemy bears on (in Atomic, squares beside the enemy king aside) |
| Castling.RightSurvives | packages/chess-core/src/movegen.ts:524-532 | a right survives a move exactly when its king did not move and nothing happened on its rook's square |
| Play.ExplodeInPlace | packages/chess-core/src/movegen.ts:535-544 | the offset loop empties the capture square and each neighbouring square that holds no pawn, and nothing else |
| Play.MoveInPlace | packages/chess-core/src/movegen.ts:459-488 | lifting, capturing, pocketing, promoting, placing and exploding in place end in the specified board and pockets |
| Play.CastleInPlace | packages/chess-core/src/movegen.ts:436-458 | both origins are vacated before either destination is written, for every overlap of the four squares |
| Play.ApplyMove | packages/chess-core/src/movegen.ts:425-513 | the successor state, every field, of any move with board indices; a castle without its rook square is refused |
| Rules.BoardFollowsTheRules | packages/chess-core/src/movegen.ts:425-544 | the board after any generated move, square by square: who stands where, what is taken, what an explosion takes |
| Bookkeeping.ClockExactly | packages/chess-core/src/movegen.ts:492-494 | the halfmove clock starts again exactly when the number of men or the squares of the pawns have changed, and else counts one more |
| Bookkeeping.ClockCounts | packages/chess-core/src/movegen.ts:492-494 | over a game the clock is the number of moves since the last such change, or all of them added to the clock it began with |
| Bookkeeping.EpIsJumpedOver | packages/chess-core/src/movegen.ts:487-490 | the en-passant square is the cell a pawn has just jumped over from rank index 1 or 6, and otherwise none |
| Bookkeeping.MovesAreNumbered | packages/chess-core/src/movegen.ts:510-512 | over a game turns alternate and the move number counts the moves of Black |
| Bookkeeping.ChecksAreCounted | packages/chess-core/src/movegen.ts:505-508 | over a Three-Check game the counts are the checks each side has given; elsewhere they stay |
| Crazyhouse.PocketsExactly | packages/chess-core/src/movegen.ts:434-477 | the mover's pocket loses the man it drops and gains the kind of the man it takes (a pawn in passing); the other pocket stays |
| Crazyhouse.KindsConserved | packages/chess-core/src/movegen.ts:434-484 | a legal Crazyhouse move keeps the number of men of each kind, board and pockets together, but for the pawn it promotes |
| Crazyhouse.NoManIsLost | packages/chess-core/src/movegen.ts:434-484 | and so does every Crazyhouse game: promotions are all that changes the stock of a kind |
| CastlingMoves.CastleConserves | packages/chess-core/src/movegen.ts:436-458 | a generated castle leaves the multiset of board cells as it was, whatever squares overlap in Chess960 |
| CastlingMoves.CastleRelocates | packages/chess-core/src/movegen.ts:436-458 | after a generated castle only that king and that rook have moved; every other square is as before |
| Legality.IsLegalAfter | packages/chess-core/src/movegen.ts:565-591 | the variant rules for leaving the board as it is: Atomic, Racing Kings, Horde, the rest |
| Legality.LegalMovesExact | packages/chess-core/src/movegen.ts:550-563 | the legal list holds exactly the moves of the rules that capture no king (Atomic aside) and leave the board legally |
| Legality.GenerateLegalMoves | packages/chess-core/src/movegen.ts:550-563 | the filter loop produces the specified list, in the same order |
| Rules.LegalMovesFollowTheRules | packages/chess-core/src/movegen.ts:550-591 | the legal moves are those of the game that take no king (Atomic aside) and leave the kings safe as the variant asks, told by what men bear on |
| Validity.ValidatePositionSemantics | packages/chess-core/src/position-validator.ts:24-84 | the validator passes a state exactly when the declarative validity predicate holds, king counts included |
| Rules.ValidByTheRules | packages/chess-core/src/position-validator.ts:24-84 | accepted means: one king a side (White none in Horde), kings apart (Atomic and Horde aside), no check the side may not be in, pockets in order |
| LegalPlay.KingAfter | packages/chess-core/src/movegen.ts:550-591 | after a legal move each side has the one king it had, where it went; only in Atomic can the opponent's be gone, and the mover's own is gone exactly when a pawn has taken it en passant in Horde or Racing Kings |
| LegalPlay.StaysWellFormed | packages/chess-core/src/movegen.ts:425-591 | every legal move of a valid well-formed position leads to a well-formed one: board, rights, en-passant square, pockets, counters |
| LegalPlay.StaysValidExactly | packages/chess-core/src/movegen.ts:425-591 | a legal move from any position the validator accepts leads to another one, or in Atomic to the enemy king's explosion, exactly when it does not take the mover's own king en passant (possible in Horde and Racing Kings only) |
| StrayEnPassant.KingTakenEnPassant | packages/chess-core/src/movegen.ts:188-192 | a Horde position that the reader and the validator accept, and a legal move after which the mover has no king |
| LegalPlay.ExplodedIsFinal | packages/chess-core/src/movegen.ts:568-574 | a side whose king has exploded has no legal move |
| LegalPlay.GamesStayValid | packages/chess-core/src/position-validator.ts:24-84 | a game of any length from any position the validator accepts stays valid (but for the last position of an Atomic game ended by an explosion) exactly when its first move does not take the mover's own king en passant |
| LegalPlay.GamesStayWellFormed | packages/chess-core/src/movegen.ts:425-591 | along games of any length from a valid well-formed position every position is well formed and valid (explosion aside) |
| Rights.RightsInStepExactly | packages/chess-core/src/movegen.ts:425-532 | after a legal move of any variant, from any position with at most one king a side, a right that was in step and is still held is in step exactly when no Atomic blast reaches its rook or king, no en-passant capture names its rook's square, and its king is not taken en passant by its own side |
| Rights.RightsStayInStepExactly | packages/chess-core/src/castling.ts:56-71 | over games of any length and any variant rights stay in step throughout exactly when no move strands one |
| Rights.RightsStayInStep | packages/chess-core/src/castling.ts:56-71 | outside Atomic, from any position the validator accepts with rights in step, they stay in step throughout a game exactly when its first move strands none |
| Rights.CastleNeedsItsRook | packages/chess-core/src/movegen.ts:347-397 | a legal castle has its right's rook on its square and its king on the back rank; outside Chess960 its right is in step |
| Rights.OnlyADropRevives | packages/chess-core/src/movegen.ts:425-532 | a right out of step comes back only by dropping a rook on its square |
| Rights.RightsFallOutOfStep | packages/chess-core/src/movegen.ts:497-502 | a valid Atomic position and a legal capture after which a held right names an empty square |
| Rights.StrandedRightIsHarmless | packages/chess-core/src/movegen.ts:382-382 | outside Chess960, in any position with at most one king a side, a right that is out of step gives no legal castle |
| StrayEnPassant.LooseIsAccepted | packages/chess-core/src/position-validator.ts:24-84 | positions of standard chess, Chess960, King of the Hill and Crazyhouse with rights in step and an en-passant field behind one's own rook: read from their own FEN and accepted |
| StrayEnPassant.RookTakenEnPassant | packages/chess-core/src/movegen.ts:188-193 | a legal move from such a position after which a held right names an empty square, in a position that is accepted again |
| StrayEnPassant.RooklessRightIsLost | packages/chess-core/src/fen.ts:108-140 | that position does not come back from its FEN |
| StrayEnPassant.CastlesWithADroppedRook | packages/chess-core/src/movegen.ts:425-435 | a Crazyhouse game of legal moves from such a position in which White may castle with a dropped rook |
| Status.HasInsufficientMaterial | packages/chess-core/src/position.ts:375-394 | the collecting loop and its tests answer yes exactly when the men other than kings are none, one minor, or bishops of one shade (standard and Chess960) |
| DeadPosition.MaterialStaysDead | packages/chess-core/src/position.ts:375-394 | a legal move cannot bring mating material back: shade is kept along bishop rays, no pawn is left to promote |
| DeadPosition.Escape | packages/chess-core/src/board.ts:66-66 | a king not beside the other king has an orthogonal neighbour square on the board out of the other king's reach |
| DeadPosition.DeadIsNotMate | packages/chess-core/src/position.ts:285-304 | no position the validator accepts with dead material is checkmate: the king in check has a legal step |
| DeadPosition.DeadForever | packages/chess-core/src/position.ts:285-304 | from any standard or Chess960 position the validator accepts, with insufficient material, no sequence of legal moves of any length reaches a checkmate |
| Status.ComputeStatus | packages/chess-core/src/position.ts:285-394 | the program's tests, in their order, give the specified status |
| Endings.StatusExactly | packages/chess-core/src/position.ts:285-304 | what each answer means: mate, stalemate, fifty moves, insufficient material, variant win and draw, each exactly when the board and the legal moves say so |
| Endings.VariantEndings | packages/chess-core/src/position.ts:306-373 | each variant's winner, exactly: the king on d4, e4, d5 or e5; three checks given; the only king left in Atomic; alone on the last rank in Racing Kings; Black against an empty Horde |
| Endings.MateIsTheMovers | packages/chess-core/src/position.ts:288-294 | after a legal move the winner by mate is exactly the mover, the other side being in check without a legal move |
| Endings.AtomicIsTheMovers | packages/chess-core/src/position.ts:317-320 | after a legal move from an accepted Atomic position the variant's winner is the mover, whose king stands, by a capture |
| Endings.ThirdCheckIsTheMovers | packages/chess-core/src/position.ts:313-316 | an undecided Three-Check game is won by the mover, by the check just given, its third |
| Endings.HillIsTheMovers | packages/chess-core/src/position.ts:339-346 | an undecided game on the hill is won by the mover, by moving its king there |
| Endings.HordeIsBlacks | packages/chess-core/src/position.ts:325-334 | only Black's own move ends a Horde game by taking the last white man |
| Endings.BlackHasOneMove | packages/chess-core/src/position.ts:348-373 | when White's king is on the last rank and Black to move, Black's next move ends the game: drawn if its king arrives, else won by White |
| Endings.FiftyMovesExactly | packages/chess-core/src/position.ts:297-299 | in a game begun with the clock at nought the fifty-move answer comes exactly after a hundred moves without capture, drop or pawn move |
| Endings.DeadMaterialExactly | packages/chess-core/src/position.ts:375-394 | insufficient means bare kings, one knight, or bishops all on squares of one colour |
| CastlingField.CastlingFieldRoundTrip | packages/chess-core/src/castling.ts:115-186 | writing rights and reading them back gives the same rights whenever each held right is borne out by an own rook on its side of the king |
| CastlingField.FieldTellsRights | packages/chess-core/src/castling.ts:168-186 | over one board two sets of rights, whatever they hold, share a castling field exactly when, colour by colour, their rooks are the same or are written alike |
| CastlingField.ReadCastlingField | packages/chess-core/src/castling.ts:115-151 | the character loop reads the specified rights: `KQkq` as the outermost rook, file letters as that rook |
| CastlingField.WriteCastlingField | packages/chess-core/src/castling.ts:168-186 | the writer uses the file letter exactly when the rook is not the outermost one |
| CastlingField.PickOutermost | packages/chess-core/src/castling.ts:74-151 | the rook scan returns the outermost own rook beyond the king on that side, or none |
| FenRoundTrip.RankReadsBack | packages/chess-core/src/fen.ts:61-123 | a rank written with run-length digits reads back to the same eight cells |
| FenRoundTrip.BoardRoundTrip | packages/chess-core/src/fen.ts:61-123 | a written placement parses to the same 64 squares, for every board |
| FenRoundTrip.PocketsReadBack | packages/chess-core/src/fen.ts:49-130 | bracketed pockets read back in order for both sides |
| FenRoundTrip.ChecksReadBack | packages/chess-core/src/check-counters.ts:34-109 | delivered counts written as remaining ones read back as delivered |
| FenRoundTrip.ParseOfToFen | packages/chess-core/src/fen.ts:36-140 | what parsing the written FEN of any state gives: a refusal exactly for a Three-Check count past three or a negative clock beside the counter field, else every field as it comes back |
| FenRoundTrip.FenRoundTripExactly | packages/chess-core/src/fen.ts:36-140 | parsing the FEN of a state, whatever it holds, gives that state back exactly when nothing stands off the board, the rights are borne out by it, pockets and counts are those of the variant, the clocks are not refused and the en-passant square is one whose name means it |
| FenRoundTrip.AcceptedRoundTrip | packages/chess-core/src/fen.ts:36-140 | of the positions read from any FEN and accepted, exactly those come back whose halfmove clock is not negative in Three-Check and whose en-passant field is written as it is read |
| FenRoundTrip.ReadIsTidy | packages/chess-core/src/fen.ts:36-105 | whatever FEN is read: nothing stands off the board, each right has its rook and king, counts are within three and there in Three-Check only, clocks are safe integers |
| FenRoundTrip.WellFormedRoundTrip | packages/chess-core/src/fen.ts:36-140 | every well-formed position comes back from its FEN (rights in step in Atomic, at most three checks in Three-Check) |
| FenGaps.StrandedRightIsLost | packages/chess-core/src/castling.ts:168-186 | a legal Atomic capture after which the position does not come back from its FEN |
| FenGaps.FourthCheckIsLost | packages/chess-core/src/check-counters.ts:100-109 | a Three-Check position that is read back, and a legal check after which it is not |
| FenGaps.NegativeClockIsLost | packages/chess-core/src/fen.ts:162-193 | any standard position with a negative halfmove clock, its FEN read as Three-Check: accepted as it was, written with a counter field, and then refused |
| FenGaps.AnyEpIsRead | packages/chess-core/src/board.ts:29-38 | any word in the en-passant field is read as a square |
| FenGaps.EpOffTheBoardIsLost | packages/chess-core/src/board.ts:29-38 | in any position that comes back, an en-passant field `i1` is taken for the square after h1, accepted, written as `a1`, and so lost |
| FenGaps.TwoKingsReturn | packages/chess-core/src/fen.ts:36-140 | positions of two kings, for every halfmove clock, are accepted and are of the kind the two gaps start from |
| FenCodec.WriteFen | packages/chess-core/src/fen.ts:108-140 | the appending loops write the specified text |
| FenCodec.ReadBoard | packages/chess-core/src/fen.ts:61-82 | the loops over rows and characters, with their moving file counter, fill the board as specified or fail with the specified error |
| FenCodec.ReadFen | packages/chess-core/src/fen.ts:36-105 | the whole reader: fields, pockets, check layouts, clocks, and every error |
| FenReading.BoardReadsExactly | packages/chess-core/src/fen.ts:61-82 | a board is read exactly when it has eight rows that each spell eight cells, and then as they spell it, the eighth rank first |
| FenReading.PocketsReadExactly | packages/chess-core/src/fen.ts:49-60 | pockets are read exactly from letters of men, capitals White's, in order |
| FenReading.CastlingReadsExactly | packages/chess-core/src/castling.ts:115-151 | each right is what the last character giving it says: K and Q the rook furthest out beyond the king, a file letter the rook on that file |
| FenReading.ClocksReadExactly | packages/chess-core/src/fen.ts:162-171 | a clock is a decimal number with or without sign, within 2^53 - 1; anything else counts as absent |
| FenLayouts.LayoutsExactly | packages/chess-core/src/fen.ts:218-276 | counts and clocks are read exactly from the plain, canonical, trailing and legacy layouts, and every other FEN is refused |
| FenLayouts.FenReadsExactly | packages/chess-core/src/fen.ts:36-105 | a FEN is read as a position exactly when its fields describe that position in one of the layouts |
| FenLayouts.TrailingReadsAlike | packages/chess-core/src/check-counters.ts:83-109 | checks given at the end and checks remaining in the middle read as the same position |
| FenLayouts.CountsNeedTheirVariant | packages/chess-core/src/fen.ts:220-236 | a written Three-Check FEN is refused under every other variant |
| FenWriting.BoardsAreSpelled | packages/chess-core/src/fen.ts:108-123 | a board is written as eight ranks, the eighth first, letters and unsplit empty runs |
| FenWriting.CastlingIsSpelled | packages/chess-core/src/castling.ts:168-186 | rights are written in the order KQkq, by the file where another own rook stands further out |
| FenWriting.FensAreSpelled | packages/chess-core/src/fen.ts:108-140 | the fields of a FEN, in order: placement with pockets, side, rights, en-passant square, checks still to give, clocks |
| Repetition.ComputeRepetitionKey | packages/chess-core/src/repetition.ts:37-55 | the first four FEN fields with the en-passant square dropped unless some legal move captures en passant, and the check counts in Three-Check |
| Repetition.KeyIsJoin | packages/chess-core/src/repetition.ts:37-55 | the key is the placement, side, rights and effective en-passant fields, and in Three-Check the counts, one space apart |
| Repetition.KeysExactly | packages/chess-core/src/repetition.ts:37-55 | two positions of one variant, whatever rights they hold, have equal keys exactly when they differ at most in rights the castling field writes alike |
| Repetition.KeyEqualIffSame | packages/chess-core/src/repetition.ts:37-55 | two positions of one variant, with rights the board bears out or rights that are both what is left of one set, have equal keys exactly when board, turn, rights, effective en-passant square, pockets and check counts agree |
| Repetition.LegalMovesSame | packages/chess-core/src/repetition.ts:37-55 | dropping an en-passant square with no legal capture changes no legal move |
| Repetition.KeyIsCongruence | packages/chess-core/src/repetition.ts:37-55 | equal keys of such positions: the same legal moves, and equal keys again after playing the same one in both |
| Repetition.SameFutures | packages/chess-core/src/repetition.ts:37-55 | equal keys of such positions: every continuation playable from one is playable from the other, position by position with equal keys |
| Repetition.RepetitionIsExact | packages/chess-core/src/repetition.ts:37-55 | within a game of any variant, Atomic blasts included, two positions have equal keys exactly when they are the same position |
| Repetition.RepetitionRepeats | packages/chess-core/src/repetition.ts:37-55 | and every game from one of the two can be played from the other, with equal keys and the same legal moves all along |
| Repetition.AcceptedIsKeyed | packages/chess-core/src/fen.ts:36-105 | every position read from a FEN and accepted is a start of such games |
| MoveIdentity.MatchLegalIsIdentity | packages/chess-core/src/position.ts:158-170 | handing a legal move back finds that very move |
| MoveIdentity.HandedMovesAreMatched | packages/chess-core/src/position.ts:123-170 | whatever is handed in, a legal move is found exactly when one agrees with all that was given, and it is one that does |
| MoveIdentity.SideAloneCastles | packages/chess-core/src/position.ts:147-157 | a castle asked for by its side, without its rook, is found |
| MoveIdentity.StepBeforeCastle | packages/chess-core/src/position.ts:191-212 | a king step to a square is listed before a castle with the same origin and destination |
| MoveIdentity.UciChess960Castle | packages/chess-core/src/position.ts:172-190 | the king-takes-rook spelling of a castle resolves to that castle when no other legal castle is spelled the same |
| MoveIdentity.UciRoundTrip | packages/chess-core/src/position.ts:172-235 | resolving the UCI text of a legal move of any position gives that move, unless two Chess960 castles share a spelling |
| MoveIdentity.UciRoundTripExactly | packages/chess-core/src/position.ts:172-235 | every legal move of a position comes back from its UCI text exactly when no two legal Chess960 castles share king and rook |
| MoveIdentity.UciComesBackAlong | packages/chess-core/src/position.ts:172-235 | over games of any length from a position whose rights the board bears out, every legal move of every position comes back from its UCI text |
| MoveIdentity.ResolvedAsWritten | packages/chess-core/src/position.ts:172-212 | a text written as moves are resolves to a legal move only if that move is written so |
| Notation.UciIsSpelled | packages/chess-core/src/position.ts:229-235 | origin and target names, the rook's square for a Chess960 castle, the small letter of a promotion, or letter, @ and square |
| San.SanIsUnambiguous | packages/chess-core/src/position.ts:238-282 | two legal moves with the same SAN are the same move (drops, promotions, en passant, castles, check suffixes included), in every position whose side to move has one king at most |
| San.SanIsUnambiguousAlong | packages/chess-core/src/position.ts:238-282 | so SAN names one move at every point of every game from an accepted start, even past the capture of a king |
| San.WriteSan | packages/chess-core/src/position.ts:238-282 | the program's steps write the specified text |
| Notation.PiecesAreSpelled | packages/chess-core/src/position.ts:255-282 | letter, origin, x on a capture, target and mark; the origin is the first of nothing, file, rank and both that fits no other legal move of the kind to that square, and the mark is + for a check and # for one without an answer |
| Notation.PawnsAreSpelled | packages/chess-core/src/position.ts:249-254 | target, with file and x when the pawn leaves its file, the letter of a promotion, and the mark |
| Notation.CastlesAndDropsAreSpelled | packages/chess-core/src/position.ts:238-248 | O-O to the g-file and O-O-O to the c-file, a drop as letter, @ and square, and the mark |
| Notation.OriginIsStandardExactly | packages/chess-core/src/position.ts:263-273 | the origin is as short as the standard asks exactly when no man of the kind can be dropped on the square, or another can be moved there (from the mover's own file, if that is the h-file) |
| Notation.NeedlessFile | packages/chess-core/src/position.ts:263-273 | a Crazyhouse position in which the only knight on the board is written with its file, because one in the pocket could be dropped |
| SingleFlight.NextKeeps | packages/engine/src/analysis-orchestrator.ts:161-247 | every enabled event keeps the protocol invariant |
| SingleFlight.OneLiveFlight | packages/engine/src/analysis-orchestrator.ts:161-183 | in every reachable state at most one live flight exists per identity, and it is the listed one |
| SingleFlight.CountersAreExact | packages/engine/src/analysis-orchestrator.ts:194-247 | in every reachable state a flight's counter is the number of its unfinished consumers, and no listed flight is aborted |
| SingleFlight.ToldOnce | packages/engine/src/analysis-orchestrator.ts:194-240 | a consumer settles at most once, and what it was told never changes |
| SingleFlight.AbortedMeansCancelled | packages/engine/src/analysis-orchestrator.ts:227-247 | a flight is aborted only after every consumer that joined it has cancelled |
| SingleFlight.AbortedIsClosed | packages/engine/src/analysis-orchestrator.ts:161-170 | nobody joins a flight that is aborted or settled |
| SingleFlight.CleanupSparesOthers | packages/engine/src/analysis-orchestrator.ts:178-182 | a cleanup, stale or not, never removes another flight's listing |
| SingleFlight.StaleCleanupIsReachable | packages/engine/src/analysis-orchestrator.ts:172-183 | a run in which an abandoned flight's cleanup runs after a new flight of its identity started, and leaves the new listing alone |
| SingleFlight.QuiescentFlight | packages/engine/src/analysis-orchestrator.ts:172-240 | once a settled flight's callbacks have run it is unlisted and each consumer has been told exactly once |
| SingleFlight.ToldResultsAreValid | packages/engine/src/analysis-orchestrator.ts:88-147 | results a consumer is given, cached or fresh, passed every test of the validator for the request, whatever value the cache or the engine returned |
| SingleFlight.AnalysisOrchestrator.Analyze | packages/engine/src/analysis-orchestrator.ts:161-217 | the method joins the listed flight or starts and lists a new one, and registers the cleanup before any consumer |
| SingleFlight.AnalysisOrchestrator.ReleaseConsumer | packages/engine/src/analysis-orchestrator.ts:219-240 | finishing a consumer happens once and counts down once |
| SingleFlight.AnalysisOrchestrator.AbortFlightIfAbandoned | packages/engine/src/analysis-orchestrator.ts:242-247 | a flight without consumers is unlisted and aborted, unless it has settled |
| SingleFlight.AnalysisOrchestrator.RunNextReaction | packages/engine/src/analysis-orchestrator.ts:178-217 | the callbacks of a settled flight run in the order they were registered |
| SingleFlight.AnalysisOrchestrator.CacheAnswered | packages/engine/src/analysis-orchestrator.ts:185-192 | an aborted flight ends, a well-formed cached value ends it, anything else computes |
| SingleFlight.AnalysisOrchestrator.EngineAnswered | packages/engine/src/analysis-orchestrator.ts:249-269 | a failure is passed on, malformed lines become a protocol error, well-formed ones go to the cache |
| SingleFlight.AnalysisOrchestrator.CheckResultSet | packages/engine/src/analysis-orchestrator.ts:133-140 | the test over all lines agrees with the specified one |
| Delivery.ResultSetsExactly | packages/engine/src/analysis-orchestrator.ts:88-140 | a result set is one to multiPv lines numbered from one, every field of each as required |
| Delivery.ToldIsDecided | packages/engine/src/analysis-orchestrator.ts:185-269 | what a consumer is told besides its cancellation was decided by an event of its flight: a valid cached value, valid engine lines, the engine's own failure, or a protocol error for malformed lines |
| Delivery.DecidedIsTold | packages/engine/src/analysis-orchestrator.ts:185-269 | once decided, written to the cache if fresh, and with no reaction left to run, every consumer that has not cancelled was told exactly that |
| Delivery.MissGoesToTheEngine | packages/engine/src/analysis-orchestrator.ts:271-288 | a cache with nothing, or nothing well formed, sends a live flight to the engine |
| Delivery.ArrivalsShare | packages/engine/src/analysis-orchestrator.ts:161-170 | an arrival joins the live flight of its identity when there is one and starts one exactly when there is none |
| Delivery.AbortCancels | packages/engine/src/analysis-orchestrator.ts:227-247 | a consumer's abort tells it its cancellation, no other anything, and aborts the flight exactly when it was the last one waiting |
| Community.NextKeeps | packages/community/src/repository.ts:289-656 | every operation run without interruption keeps: one owner per team, no pending request of a member, at most one pending request per team and player |
| Community.ExactlyOneOwner | packages/community/src/repository.ts:289-656 | after every run of operations with fresh ids each team has exactly one owner |
| Community.OnlyTheOwnerHandsOver | packages/community/src/repository.ts:491-524 | an owner loses a team exactly by its own successful transfer, and to the named member |
| Community.OnlyTheEntitledChangeMemberships | packages/community/src/repository.ts:397-625 | a membership changes only as roles allow: joining a public team, an accepted request, leaving, removal or role change by someone of higher rank, a transfer by the owner |
| Policy.CallsAreRefused | packages/community/src/repository.ts:289-656 | every call goes through exactly when roles and records allow it, and is refused for the reason they give |
| Policy.RolesFollow | packages/community/src/repository.ts:289-656 | after any call everyone's role in every team is exactly what the call says |
| Policy.RecordsFollow | packages/community/src/repository.ts:289-656 | and so are the teams and join requests; a join settles what the player had pending |
| Policy.PrivateTeamsAreHidden | packages/community/src/repository.ts:248-260 | to an outsider a private team answers as a team that does not exist |
| Community.MemberKeysDiffer | packages/community/src/repository.ts:236-238 | with team ids free of colons two membership keys are equal exactly when team and player are |
| Community.SecondHalfOwners | packages/community/src/repository.ts:397-625 | who owns which team after an operation resumes from its await, in whatever state it finds |
| Community.OwnersStayUnlessUnseated | packages/community/src/repository.ts:585-625 | a resumed operation leaves every team an owner exactly when it is not the acceptance of a player who meanwhile became the owner |
| Community.OverlappingCalls | packages/community/src/repository.ts:344-656 | however calls interleave at their awaits no team has two owners; every team has one throughout exactly when no acceptance unseats an owner |
| Community.CurrentAnswersAreEnough | packages/community/src/repository.ts:585-625 | if each resumed acceptance still finds its request as it was read, every team keeps an owner throughout |
| Community.TeamCanLoseItsOwner | packages/community/src/repository.ts:585-625 | three overlapping calls (join, transfer, accept) after which a team has no owner |
| Community.InMemoryCommunityRepository.CreateTeam | packages/community/src/repository.ts:289-328 | the slug scan and the two writes |
| Community.InMemoryCommunityRepository.JoinTeam | packages/community/src/repository.ts:397-427 | joining, its three refusals, and the loop that accepts the pending request |
| Community.InMemoryCommunityRepository.UpdateMemberRole | packages/community/src/repository.ts:450-489 | the role rules, in the order of the checks |
| Community.InMemoryCommunityRepository.TransferOwnership | packages/community/src/repository.ts:491-524 | the transfer and its four refusals |
| Community.InMemoryCommunityRepository.CreateJoinRequest | packages/community/src/repository.ts:548-583 | a request is refused to members and to players with one pending |
| Community.InMemoryCommunityRepository.RespondToJoinRequest | packages/community/src/repository.ts:585-625 | answering a request, acceptance writing the membership |
| Community.InMemoryCommunityRepository.LeaveOrRemoveMember | packages/community/src/repository.ts:429-448 | removal, never of the owner |
| Sessions.InMemorySessionsRepository.Rotate | packages/api/src/fakes.ts:219-249 | the first session with the hash: missing, revoked, expired, or revoked and replaced |
| Sessions.InMemorySessionsRepository.CollectChain | packages/api/src/fakes.ts:271-285 | the `while (changed)` passes end, with exactly the root and the user's sessions that come from it by rotations |
| Sessions.InMemorySessionsRepository.RevokeChainForUser | packages/api/src/fakes.ts:267-297 | null for a root that is absent or another user's; otherwise exactly the chain is revoked, earlier revocation times stay, and the count is of the newly revoked |
| Sessions.InMemorySessionsRepository.RevokeAllForUser | packages/api/src/fakes.ts:299-308 | exactly the user's sessions are revoked, and the count is of the newly revoked |
| Sessions.InMemorySessionsRepository.Revoke | packages/api/src/fakes.ts:257-265 | true exactly for the call that revokes |
| Sessions.RunKeepsFamilies | packages/api/src/fakes.ts:180-308 | over every run with fresh ids and hashes: a session is rotated into at most one other, later one of the same user, and only once revoked |
| Sessions.FamilyIsAPath | packages/api/src/fakes.ts:219-249 | of two sessions of one family one comes from the other |
| Sessions.NoCycle | packages/api/src/fakes.ts:219-249 | no session comes from itself through another |
| Sessions.OneLiveSession | packages/api/src/fakes.ts:219-249 | a family has at most one session that is not revoked, and every other comes before it |
| Sessions.ChainIsWholeFamily | packages/api/src/fakes.ts:267-285 | the same-user filter of the chain search loses no descendant |
| Sessions.HashRotatesOnce | packages/api/src/fakes.ts:219-249 | over every run a refresh hash rotates successfully at most once, never once its session is revoked |
| Sessions.ChainEndsForGood | packages/api/src/fakes.ts:267-297 | after a family is revoked from its root, in every later run no session joins it and none of it is live |
| TokenLife.RotationExactly | packages/api/src/fakes.ts:219-249 | what a known token is answered, what its session becomes, and the session started from it, field by field |
| TokenLife.RowsAreLeft | packages/api/src/fakes.ts:186-308 | every call leaves every session as it is, but for ending exactly the live ones it names, at its time |
| TokenLife.RowsAreAdded | packages/api/src/fakes.ts:186-249 | sessions are added by sign-ins and successful refreshes, as asked for, and by nothing else |
| TokenLife.LiveTokenWorks | packages/api/src/fakes.ts:219-249 | a live session's token refreshes it any time before expiry, whatever calls come in between that do not end it |
| RateLimit.RateLimiter.CheckRequest | packages/ai-orchestrator/src/rate-limiter.ts:38-69 | refill, the overall bucket, the user bucket, what is charged when either refuses |
| RateLimit.RateLimiter.SweepBuckets | packages/ai-orchestrator/src/rate-limiter.ts:84-88 | the sweep drops exactly the buckets idle for more than a minute |
| RateLimit.SweepIsUnobservable | packages/ai-orchestrator/src/rate-limiter.ts:38-88 | with a monotone clock the verdicts are those of a limiter that never sweeps |
| RateLimit.ReachableFits | packages/ai-orchestrator/src/rate-limiter.ts:77-82 | tokens stay between zero and the capacity |
| RateLimit.RateBound | packages/ai-orchestrator/src/rate-limiter.ts:38-88 | in a window of d milliseconds one user is admitted at most capacity + capacity * d / 60000 times |
| IdealLimiter.AnswersLikeIdeal | packages/ai-orchestrator/src/rate-limiter.ts:38-88 | whatever calls come in time order, each is answered as by buckets that start full and fill continuously |
| LruCache.InMemoryLruCache.Get | packages/ai-orchestrator/src/cache.ts:133-145 | a hit moves the entry to the young end, an expired entry goes |
| LruCache.InMemoryLruCache.Set | packages/ai-orchestrator/src/cache.ts:147-162 | the eviction loop drops the oldest entries until the limit holds |
| LruCache.HitIsLatest | packages/ai-orchestrator/src/cache.ts:93-162 | a hit is the latest value written under the key, within its time to live |
| LruCache.MissIsJustified | packages/ai-orchestrator/src/cache.ts:122-171 | a miss means never written, expired, or at least `maxEntries` other keys found or written since the last access to this one; lookups that find nothing do not count |
| LruCache.SizeBounded | packages/ai-orchestrator/src/cache.ts:147-162 | never more than `maxEntries` entries, no key twice |
| Breaker.RunKeeps | packages/ai-orchestrator/src/health.ts:54-114 | half-open implies open; closed means fewer consecutive failures than the threshold |
| Breaker.OpenedByFailure | packages/ai-orchestrator/src/health.ts:70-85 | an open breaker was opened by a failure and has been open since |
| Breaker.ClosesOnlyAfterProbing | packages/ai-orchestrator/src/health.ts:54-114 | an open breaker closes only after a cooldown longer than `resetTimeoutMs` since its last opening and `successThreshold` successes with no failure between |
| Breaker.OpensExactly | packages/ai-orchestrator/src/health.ts:70-85 | a closed breaker opens exactly at the failure that makes the threshold of failures in a row |
| Breaker.ProbesExactly | packages/ai-orchestrator/src/health.ts:108-114 | an open one starts probing exactly at an attempt after the cooldown since the failure that opened it |
| Breaker.ProbeEndsExactly | packages/ai-orchestrator/src/health.ts:54-85 | probing ends open at a failure and closed exactly at the success that completes those asked for |
| Breaker.HoldsBackExactly | packages/ai-orchestrator/src/health.ts:92-100 | requests are held back exactly from an opening failure until the cooldown is over |
| Breaker.HealthTracker.RecordFailure | packages/ai-orchestrator/src/health.ts:70-85 | failure bookkeeping and opening |
| Breaker.HealthTracker.RecordSuccess | packages/ai-orchestrator/src/health.ts:54-67 | success bookkeeping and closing |
| Breaker.HealthTracker.TryEnterHalfOpen | packages/ai-orchestrator/src/health.ts:108-114 | half-open is latched exactly after the cooldown |
| Failover.CandidatesExact | packages/ai-orchestrator/src/router.ts:49-81 | the candidates are exactly the untried, capable providers whose breaker lets a request through |
| Failover.AiOrchestrator.FilterCandidates | packages/ai-orchestrator/src/router.ts:49-81 | the filter keeps the specified providers in order; every provider it looks at past its breaker has its half-open transition latched at that time, and no other breaker changes |
| Failover.AiOrchestrator.Route | packages/ai-orchestrator/src/router.ts:100-181 | nobody exactly when there is no candidate; else the first candidate, the first of the best-scored, or the next in turn; breakers change as the filter says |
| Failover.AiOrchestrator.ExecuteWithFailover | packages/ai-orchestrator/src/orchestrator.ts:238-290 | whatever other requests do to breakers, index and counter while this one awaits its provider: each call goes to the provider the strategy picks at its turn, after retryable failures only; the request stops exactly on an answer, a failure not worth retrying, an abort, no candidate left or attempts used up; verdict and shared state follow |
| Failover.EachCallOnce | packages/ai-orchestrator/src/orchestrator.ts:238-290 | for every request, others overlapping or not: calls within the limit, no provider called twice or without being capable, one outcome told for each call and none for anyone else |
| Failover.AloneIsReplayed | packages/ai-orchestrator/src/orchestrator.ts:238-290 | a request that no other overlaps leaves each breaker as its own calls and tries make it |
| Failover.OutcomeIsTheCalls | packages/ai-orchestrator/src/orchestrator.ts:270-276 | the outcome a breaker is told of is that of its call: success exactly when it was answered |
| Routing.CapableIsSuiting | packages/ai-orchestrator/src/router.ts:68-93 | a provider is capable exactly when it offers modality, streaming and structure as asked, and the model it would use costs no more than the ceiling |
| Routing.PriorityCallsFirst | packages/ai-orchestrator/src/router.ts:100-117 | priority calls the first registered provider that is untried, suits and is not held back |
| Routing.WeightedCallsBest | packages/ai-orchestrator/src/router.ts:121-145 | weighted calls the first registered of those that score highest |
| Routing.RoundRobinIsFair | packages/ai-orchestrator/src/router.ts:164-181 | over as many routings as candidates round robin picks each exactly once |
| Routing.AnswersTell | packages/ai-orchestrator/src/orchestrator.ts:238-290 | the answer is the last call's when that succeeded; a failure means it failed for good, the attempts were used up, or nobody eligible was left; every earlier call failed retryably |
| Routing.FailoversAreCounted | packages/ai-orchestrator/src/orchestrator.ts:279-281 | without overlap one failover is counted for each failed call with an attempt to come |
| BotPooling.AggregateBotBehavior | packages/anti-cheat/src/bot-aggregate.ts:50-109 | the loop over reports computes the specified pooled figures and refuses a repeated game |
| BotPooling.VarianceAgrees | packages/anti-cheat/src/bot-aggregate.ts:76-83 | the variance from sums equals the two-pass variance and is never negative, so the clamp never fires |
| BotPooling.SquareOfSum | packages/anti-cheat/src/bot-aggregate.ts:76-83 | n times the sum of squares is at least the square of the sum |
| BotPooling.PoolingIsHomomorphism | packages/anti-cheat/src/bot-aggregate.ts:50-109 | pooled mean, deviation, instant counts and, when trusted, suspicion are those of one analysis of all the moves |
| Pacing.GameFigures | packages/anti-cheat/src/bot-behavior.ts:111-155 | sample, instant replies, sums, mean and spread are those of the moves outside the book |
| Pacing.GameVerdict | packages/anti-cheat/src/bot-behavior.ts:75-155 | the verdict on a game in plain numbers: ten moves at least, a spread of a quarter or half the mean, nine or seven of ten replies instant |
| Pacing.AccountVerdict | packages/anti-cheat/src/bot-aggregate.ts:76-109 | the verdict on an account: three games and forty moves at least, and the same numbers pooled |
| CorrelationPooling.ScorePly | packages/anti-cheat/src/analyzer.ts:124-168 | one turn of the loop, with its early continues, adds the specified contribution |
| CorrelationPooling.AnalyzePlayer | packages/anti-cheat/src/analyzer.ts:109-206 | the loop computes the specified totals and report |
| CorrelationPooling.AggregatePlayer | packages/anti-cheat/src/aggregate.ts:65-129 | the loop over reports computes the specified aggregate and refuses a repeated game |
| CorrelationPooling.TotalsFit | packages/anti-cheat/src/analyzer.ts:109-206 | t1 <= t3 <= eligible plies, sample = eligible + forced, capped loss within raw loss |
| CorrelationPooling.PoolingIsHomomorphism | packages/anti-cheat/src/aggregate.ts:65-129 | pooled losses and rates are those of one analysis of all the plies at the same depth |
| CorrelationPooling.OrderIsIrrelevant | packages/anti-cheat/src/aggregate.ts:65-129 | reordering games changes nothing but the order of the flagged ids |
| Screening.TotalsCount | packages/anti-cheat/src/analyzer.ts:124-168 | each total counts the plies that qualify: scored, with a choice, best move, top three; losses are summed and capped at 300 |
| Screening.GameVerdict | packages/anti-cheat/src/analyzer.ts:170-189 | the verdict on a game in whole numbers: twenty scored plies, ten with a choice and depth fourteen at least; high from seven tenths best moves and fifteen centipawns, a review from eleven twentieths and twenty-five |
| Screening.AccountVerdict | packages/anti-cheat/src/aggregate.ts:100-129 | the verdict on an account: three games and forty plies with a choice at least, and the same numbers pooled |
| Screening.FiguresAreAverages | packages/anti-cheat/src/analyzer.ts:170-183 | the figures of a report and of an account are averages over the plies that count for them |
| Screening.FlaggedExactly | packages/anti-cheat/src/aggregate.ts:65-129 | a game is named exactly when its own verdict was not clean |

## Left out

- FenRoundTrip.FenRoundTripExactly: takes clocks within 2^53 - 1 either way, beyond which the program's numbers are no longer exact, and an en-passant index within 32 bits whose rank is not written as half of a surrogate pair; text here is made of characters, not of UTF-16 halves.
- FenRoundTrip.AcceptedRoundTrip: leaves out an en-passant rank written as half of a surrogate pair.
- FenRoundTrip.WellFormedRoundTrip: takes clocks within 2^53 - 1.
- Repetition.KeyEqualIffSame: two positions of different games, one of them with a right the board does not bear out, are told apart only as far as Repetition.KeysExactly says, since the castling field writes some such rights alike.
- Play.ApplyMove: takes moves whose squares are board indices; out-of-range writes of a hand-built move are not modelled.
- Failover.AiOrchestrator.ExecuteWithFailover: reads the clock once per routing and once per answer, and takes each call's result, the providers' scores and what other requests do meanwhile as given; the set of registered providers does not change during a request; timeouts, streaming and embeddings are not modelled.
- BotPooling.PoolingIsHomomorphism: works over reals with the square root as any function that maps 0 to 0; floating-point rounding is not modelled.
- Community.TeamCanLoseItsOwner: resumptions are steps of their own and may come in any order, which includes the first-in-first-out order used there; the runtime's microtask queue is not modelled.
- FenCodec.ReadFen: number tokens are signed runs of decimal digits; fractions, exponents, hexadecimal and over-long tokens, case mapping outside ASCII, and unknown letters in a pocket (an error here) are not modelled, and an en-passant field of one character is read as one fixed non-square, which is written as a1.
- Castling.UpdateCastlingRights: rights are a value here, while the program clears fields of a fresh copy.
- `Position`: the cached move list, `perft`, and the construction of start positions, Chess960 ids included.
- Aliasing between a position and its snapshot (`cloneState`): boards are values outside the in-place methods.
- Single flight: observer calls and reentrancy from them, the JSON text of flight keys (an opaque identity).
- The LRU cache's key construction and hashing (opaque keys) and the `NullCache`.
- Health snapshots, scores, `reset()` and error messages of the circuit breaker.
- Community: names, descriptions and slugs as validated texts, forum threads and posts, listing and paging, `clear()`.
- Sessions: `touch`, `listForUser`, `findActiveById` and the client details of a row; the other in-memory fakes.
- Awaits inside one session, limiter or cache call: these methods hold none between reading and writing.
- AI prompts, speech, HTTP adapters, presenters, persistence, server wiring, ratings, achievements, databases of openings and endgames, puzzle and mistake classification.
