# Verified models of tiru-emba

tiru-emba is a terminal messenger with two games, a relay server for users on different
networks, a sign-in wizard and an image-to-text renderer. This project models its stateful
cores in Dafny and proves what they promise over every input, every run and every
interleaving. `dafny verify dfyconfig.toml` checks all of it.

| files | what they model |
|---|---|
| `LudoBoard`, `LudoRules`, `LudoInvariant`, `LudoEngine` | the Ludo rules on values, their invariant, and the mutable game proved to follow them |
| `LudoLaws` | the rules again, written out in positions and squares: legal moves, captures, rolls, outcomes and the computer’s choice, proved of those functions |
| `LudoAi`, `LudoSymmetry`, `LudoFairness`, `LudoFinish` | the computer player, colour symmetry, fairness of turns, and that every match can be finished |
| `LudoPeer`, `LudoPeerModel`, `LudoPeerLaws`, `LudoNet` | host and guest handlers, the mutable host and guest, what each message and key leads to, and the networked match as a system of events |
| `LudoChoices`, `LudoOvertaking`, `LudoHaste` | what becomes of a guest’s choice on its way to the host if the guest waits, and if it goes on pressing keys; runs of guests that press keys faster than they are answered |
| `GameSession`, `TicTacToe`, `TicTacToeLaws`, `TicTacToeNet` | game sessions; one tic-tac-toe endpoint; its rules by the geometry of the board; two endpoints joined by a connection |
| `RelayHub`, `RelayStore`, `RelayStoreLaws`, `RelayStoreModel` | the registry of connections, the database and its transactions, what each leaves to be read, and the mutable store with the rules above it |
| `RelayServer`, `RelayRequests`, `RelayAwards`, `RelayLeaving` | the server as interleaved steps, what comes of each request, what is paid for messages, and how connections leave |
| `Lobby`, `LobbyModel` | inviting several peers to one match |
| `Onboarding`, `OnboardingModel`, `OnboardingLaws` | the sign-in wizard, and what each key and reply leads to |
| `AsciiArt`, `AsciiArtLaws` | images as text, and the text character by character |
| `Text`, `Wrappers` | trimming and measuring text; the result types |

Where the program changes things step by step there is a class whose methods do the same, each
proved to compute a function of the state before; the properties are then proved of those
functions. The modules named `Laws` and `RelayRequests` say what those functions compute without
using them: in positions, squares, rows, keys and texts. Concurrent parts are systems of events: one event is one handler call, one message
taken off a queue, one database transaction or one look at the registry, and a run is any
sequence of events that are possible. Some states carry histories (the host's successive
positions, the moves made, the journal of payments, the deliveries made, what was asked of the
server and replied); events add to them and never read them.

Players' colours are pairwise distinct and there are two to four, as the constructors of a match
give them. The die, the computer's and players' choices, the clock, fresh codes, the order rows
come in and what a typed path resolves to are inputs.

## Findings

- A guest's roll is carried out without checking that a roll is due
  (`internal/games/ludo/net.go:198-200`), unlike the host's own and the computer's. The
  invariants hold all the same, but the limit of three rolls a turn does not:
  `LudoFairness.UncheckedRollsExactly` says exactly from which positions a player can roll on
  without limit (with a token in play, a choice pending, or fewer than two sixes behind it), and
  `LudoHaste.HastyGuestHoldsTheTurn` shows the first guest doing so, in every match in which it
  does not bear the host's name, by keys its own screen lets through.
- When a tic-tac-toe move cannot be sent, the endpoint is done without announcing the end
  (`internal/games/tictactoe/model.go:91-96`), and ignores whatever would have announced it
  later: `TicTacToe.EndIsAnnouncedExactly`, `TicTacToeNet.FailedSendIsSilent` and
  `TicTacToeNet.ToldUnlessSilenced`.
- Completing a shared todo does not check whether it is done already
  (`internal/relay/pgstore.go:608-624`), so it pays every time it is completed by a member with
  a profile, and only then: `RelayStore.TodoPaysEveryTime`.
- A guest's legal choice of a token can be refused, or carried out with a die the guest never
  saw, though it was made on a screen that shows the host's position
  (`internal/games/ludo/net.go:184-221`). For a guest that goes on pressing keys,
  `LudoOvertaking.ChoiceIsSafeExactly` gives the exact condition: something of that guest's under
  way can be carried out before the choice, or the guest has another legal choice and no copy of
  this one under way, since two listeners deliver in either order and the second choice can
  overtake the first. For a guest that waits once it has chosen it is that something it had under
  way already would be carried out before the choice (`LudoChoices.WaitingChoiceIsSafeExactly`).
  `LudoHaste.DoubleRoll`, `LudoHaste.DoubleChoice` and `LudoHaste.Overtaking` are runs from the
  start of a match.
- Nothing refuses one handle given twice when a match is set up
  (`internal/ui/model.go:1157-1191`). Of two seats of one name the second's instance takes the
  first seat for its own (`internal/games/ludo/net.go:96-105`), so on its own turn its keys are
  dead: `LudoPeer.FindsOwnSeatExactly`, `LudoChoices.KeysFitExactly`.
- The writer of a relay connection stops for good on a failed write
  (`internal/relay/server.go:120-137`), and a handler then waits for ever for room on a full
  outbox, its handle taken: `RelayLeaving.StuckForGood`. That is the only way a connection fails
  to leave the registry: `RelayLeaving.StuckExactly`, `RelayLeaving.LeavesOrSticks`.
- The sign-in wizard asks for passwords of at least six characters and counts bytes
  (`internal/ui/onboarding/model.go:525`): `Onboarding.ShortPasswordsExactly` says for which
  passwords that differs, and `Onboarding.TwoCharactersPass` gives one of two characters.
- With more columns than the image is wide, an image's boxes overlap:
  `AsciiArt.TilesExactlyWhenNoMore`.

## Model

| member | source | states |
|---|---|---|
| `LudoBoard.BuildSafeSquares` | `internal/games/ludo/board.go:84-93` | the table filled in by the loop contains exactly the squares the safety test accepts |
| `LudoBoard.SafeSquareTable` | `internal/games/ludo/board.go:67-97` | there are eight safe squares: the four starts and the four squares eight further on |
| `LudoBoard.StartIsSafe` | `internal/games/ludo/board.go:75-97` | every colour enters the track on a safe square |
| `LudoBoard.NextColor` | `internal/games/ludo/board.go:11-18` | the next colour round the board is another colour, and starts a quarter turn further on |
| `LudoBoard.GlobalIndexShift` | `internal/games/ludo/board.go:103-105` | advancing the colour by one quarter moves every square of its path by 13, modulo 52 |
| `LudoBoard.QuarterTurnInjective` | `internal/games/ludo/board.go:103-105` | a quarter turn never brings two squares together |
| `LudoBoard.QuarterTurnKeepsSafety` | `internal/games/ludo/board.go:84-97` | a square is safe exactly if the square a quarter turn on is |
| `LudoRules.LegalFrom` | `internal/games/ludo/game.go:154-179` | the legal tokens are listed in increasing order, each once, and every movable one is there |
| `LudoRules.ExecConcat` | `internal/games/ludo/game.go:124-224` | playing two stretches of a match one after the other is playing them joined |
| `LudoInvariant.NewGameInv` | `internal/games/ludo/game.go:88-93` | a new match of 2 to 4 differently coloured players satisfies the invariant |
| `LudoInvariant.MoveEffect` | `internal/games/ludo/game.go:182-224` | what a legal move does to every token of every player: the moved one, the captured ones, all others |
| `LudoInvariant.MoveKeepsPositions` | `internal/games/ludo/game.go:182-224` | every position still matches its token state: yard 0, track 0 to 50, stretch 51 to 55, finished 56 |
| `LudoInvariant.MoveKeepsExclusive` | `internal/games/ludo/game.go:182-279` | after a move no unsafe square holds tokens of two colours |
| `LudoInvariant.MoveKeepsWinner` | `internal/games/ludo/game.go:215-220` | after a move the match is over exactly if the mover has four finished tokens |
| `LudoInvariant.StepInv` | `internal/games/ludo/game.go:124-289` | every action, allowed or not, keeps the invariant |
| `LudoInvariant.ExecInv` | `internal/games/ludo/game.go:124-289` | every run of actions keeps the invariant |
| `LudoInvariant.ReachableState` | `internal/games/ludo/game.go:124-279` | in every reachable state: positions in range, unsafe squares one colour only, a choice of token offered only if there is one, and at most two sixes counted |
| `LudoInvariant.SingleWinner` | `internal/games/ludo/game.go:215-220` | in every reachable state: the match is over, a winner is named, and exactly one player (the one whose turn it is) has four finished tokens, all three or none |
| `LudoInvariant.GameOverAbsorbing` | `internal/games/ludo/game.go:124-127` | once a match is over no run of actions changes anything |
| `LudoEngine.Token.constructor` | `internal/games/ludo/game.go:16-48` | a new token has the identity and colour given and sits in the yard |
| `LudoEngine.Player.constructor` | `internal/games/ludo/game.go:41-48` | a new player has four fresh tokens of its colour, numbered in order, all in the yard |
| `LudoEngine.Player.HasWon` | `internal/games/ludo/game.go:50-57` | true exactly if all four tokens are finished |
| `LudoEngine.Game.constructor` | `internal/games/ludo/game.go:88-93` | a new match waits for the first roll of the first player |
| `LudoEngine.Game.LegalMoves` | `internal/games/ludo/game.go:154-163` | the list is the one the rules give for the current player and die |
| `LudoEngine.Game.CanMove` | `internal/games/ludo/game.go:165-179` | a token may move exactly if the rules say so: out of the yard on a six, never past home |
| `LudoEngine.Game.EndTurn` | `internal/games/ludo/game.go:281-289` | the whole match afterwards is the one the rules give |
| `LudoEngine.Game.ApplyRoll` | `internal/games/ludo/game.go:124-150` | the whole match afterwards is the one the rules give for that roll |
| `LudoEngine.Game.RollDice` | `internal/games/ludo/game.go:108-114` | the value is between 1 and 6 and has been applied |
| `LudoEngine.Game.TokensOnSquare` | `internal/games/ludo/game.go:248-258` | the tokens found are exactly those on the track at that square, whatever their player |
| `LudoEngine.Game.WouldCaptureAt` | `internal/games/ludo/game.go:230-244` | answers what the rules answer, changing nothing |
| `LudoEngine.Game.Capture` | `internal/games/ludo/game.go:263-279` | exactly the opponents sharing an unsafe square go back to the yard, and it reports whether any did |
| `LudoEngine.Game.MoveToken` | `internal/games/ludo/game.go:182-224` | result, error and whole match afterwards are those of the rules; a refused move changes nothing |
| `LudoLaws.StartsInTheYards` | `internal/games/ludo/game.go:41-93` | a new match, in literals: first player, roll due, four tokens in every yard |
| `LudoLaws.MovesExactly` | `internal/games/ludo/game.go:165-213` | in every state of the invariant a choice is accepted exactly if one is due and the token is in the yard on a six, or on its way with at most 56 minus its position to go; it then stands on 0 or a die further on; otherwise which error, in order |
| `LudoLaws.OfferedExactly` | `internal/games/ludo/game.go:154-179` | the tokens offered are exactly those, in ascending order |
| `LudoLaws.RollExactly` | `internal/games/ludo/game.go:124-150` | a roll in a match that is on, in literals: third six, choice due, six rolled again, or the next seat round the table |
| `LudoLaws.RollOnceOver` | `internal/games/ludo/game.go:124-127` | a roll changes nothing once the match is over |
| `LudoLaws.MovedExactly` | `internal/games/ludo/game.go:182-213` | after every accepted move: the moved token’s position and state by position, and the mover’s other tokens as they were |
| `LudoLaws.CapturedExactly` | `internal/games/ludo/game.go:248-279` | an opponent’s token changes exactly if it was on the track, on the same square (start offset plus position, modulo 52) the moved token now stands on, and that square is none of 0, 8, 13, 21, 26, 34, 39, 47; it is then in its yard |
| `LudoLaws.CapturesExactly` | `internal/games/ludo/game.go:263-279` | the captured flag is set exactly if some token is sent home so |
| `LudoLaws.MoveOutcome` | `internal/games/ludo/game.go:215-224` | four tokens at 56 end the match for the mover; else a six rolls again; else the next seat is due, its sixes uncounted |
| `LudoLaws.SeatsKeepNames` | `internal/games/ludo/game.go:182-224` | no move changes who sits where |
| `LudoLaws.FinishedStays` | `internal/games/ludo/game.go:248-279` | over every run, a token that is home stays home |
| `LudoLaws.LooksAheadExactly` | `internal/games/ludo/game.go:230-244` | the look-ahead captures exactly if the position is at most 50, its square gives no shelter and an opponent on the track stands on it |
| `LudoLaws.ComputerChoosesExactly` | `internal/games/ludo/ai.go:12-43` | by what the moves themselves return: the first token whose move captures, else the first that leaves the yard, else the foremost that may move, the first of equals |
| `LudoAi.ChooseAIMove` | `internal/games/ludo/ai.go:12-43` | returns the token the stated priorities single out |
| `LudoAi.FindCapture` | `internal/games/ludo/ai.go:19-25` | finds the first legal move that captures, or establishes that none does |
| `LudoAi.FindYardExit` | `internal/games/ludo/ai.go:27-31` | finds the first legal yard exit, or establishes that there is none |
| `LudoAi.FindForemost` | `internal/games/ludo/ai.go:33-42` | finds the first legal token that no legal token is ahead of |
| `LudoAi.ChosenUnique` | `internal/games/ludo/ai.go:12-43` | the priorities single out one token only |
| `LudoAi.LandingFaithful` | `internal/games/ludo/game.go:226-279` | landing captures exactly if an opponent stands there and the square is not safe |
| `LudoAi.LookAheadFaithful` | `internal/games/ludo/ai.go:12-31` | for every legal token the look-ahead agrees with the captured flag the move then returns; yard exits never capture |
| `LudoAi.AiPriorities` | `internal/games/ludo/ai.go:12-43` | the choice is legal, captures whenever some legal move does, else leaves the yard whenever it can, else is a foremost token |
| `LudoSymmetry.RollRotates` | `internal/games/ludo/game.go:124-150` | advancing all colours by a quarter commutes with every roll |
| `LudoSymmetry.MoveRotates` | `internal/games/ludo/game.go:182-289` | advancing all colours by a quarter commutes with every move: same error, same captured flag, rotated match |
| `LudoSymmetry.AiRotates` | `internal/games/ludo/ai.go:12-43` | the computer chooses the same token in the rotated match |
| `LudoSymmetry.RunRotates` | `internal/games/ludo/game.go:124-289` | advancing all colours commutes with whole runs, so no colour is favoured |
| `LudoSymmetry.FourTurns` | `internal/games/ludo/board.go:67-105` | four quarter turns are none |
| `LudoFairness.RollCases` | `internal/games/ludo/game.go:124-150` | where a roll that is due leads: a choice of token, another roll after a six, or the next player |
| `LudoFairness.MoveCases` | `internal/games/ludo/game.go:182-224` | where a legal move leads: the end, another roll after a six, or the next player |
| `LudoFairness.AtMostThreeInARow` | `internal/games/ludo/game.go:124-150` | when rolls are made only when due, no four rolls in a row are one player’s |
| `LudoFairness.RollersInTableOrder` | `internal/games/ludo/game.go:281-289` | the players who roll, in order: after each roll comes one by the same player or by the next, never another’s |
| `LudoFairness.EverySeatRolls` | `internal/games/ludo/game.go:124-150` | among any 3(n-1)+1 rolls of an unfinished match every one of the n players rolls |
| `LudoFairness.UncheckedRollsExactly` | `internal/games/ludo/net.go:184-200` | finding: the host carries out a guest’s roll without checking that one is due; with such rolls, and legal moves between them, a player can make any number of rolls in one turn exactly if it has a token in play, a choice to make or fewer than two sixes behind it, and otherwise makes one more at most |
| `LudoFinish.SparingRoll` | `internal/games/ludo/game.go:263-279` | an opponent always has a die from 1 to 5 that captures none of a given player’s four tokens |
| `LudoFinish.OpponentTurn` | `internal/games/ludo/game.go:124-289` | an opponent’s turn can be played so that a given player’s tokens stay where they are and the turn passes on |
| `LudoFinish.OwnTurn` | `internal/games/ludo/game.go:124-289` | a player’s own turn can be played so that it comes nearer to finishing |
| `LudoFinish.WinningRun` | `internal/games/ludo/game.go:124-289` | from every state satisfying the invariant there is a run of due rolls and legal moves in which a given player wins |
| `LudoFinish.EverySeatStillInIt` | `internal/games/ludo/game.go:124-289` | which players can still win: all of them if the match goes on, unless an opponent’s pending choice is forced to end it; exactly characterised |
| `LudoFinish.MatchCanBeFinished` | `internal/games/ludo/game.go:124-289` | from every reachable unfinished state some finite run of legal play ends the match |
| `LudoPeer.FindsOwnSeatExactly` | `internal/games/ludo/net.go:96-105` | an instance finds its own seat exactly if no earlier seat bears its name |
| `LudoPeer.NameForAt` | `internal/games/ludo/net.go:107-115` | a colour at the table has the name of its player |
| `LudoPeer.WinTextPerSeat` | `internal/games/ludo/model.go:298-317` | with distinct names and a won match the winner reads that it won and everybody else reads the winner’s name |
| `LudoPeerModel.SeatColorOfPlayers` | `internal/games/ludo/net.go:96-105` | the colour of the player with this name, red if there is none |
| `LudoPeerModel.WinTextOf` | `internal/games/ludo/model.go:298-317` | what a won match means for the instance of this name |
| `LudoPeerModel.NameForSeat` | `internal/games/ludo/net.go:107-115` | the name of the player of this colour, the colour’s name if there is none |
| `LudoPeerModel.NewHost` | `internal/games/ludo/net.go:59-77` | a new host is Red and its guests Green, Yellow and Blue in order, each on its own session; the match is fresh and the host not done |
| `LudoPeerModel.HostModel.BroadcastState` | `internal/games/ludo/net.go:171-180` | every guest is sent the match as it stands, without the count of sixes, and nothing else |
| `LudoPeerModel.HostModel.CloseNetwork` | `internal/games/ludo/net.go:240-249` | every session is closed once |
| `LudoPeerModel.HostModel.Finish` | `internal/games/ludo/model.go:298-317` | the match ends with the winner’s text, every session closed after what it was sent |
| `LudoPeerModel.HostModel.FinishWithReason` | `internal/games/ludo/model.go:319-324` | the match ends with the reason given, every session closed |
| `LudoPeerModel.HostModel.AfterAction` | `internal/games/ludo/model.go:274-294` | everybody is sent the match; then it ends, or a listener is armed for the guest whose turn it is |
| `LudoPeerModel.HostModel.RollDice` | `internal/games/ludo/model.go:187-197` | a roll carried out and reported |
| `LudoPeerModel.HostModel.MoveToken` | `internal/games/ludo/model.go:209-248` | a move carried out and reported, or refused with nothing sent and nothing changed |
| `LudoPeerModel.HostModel.Receive` | `internal/games/ludo/net.go:184-221` | a guest’s message: ignored when done, the end when it has left, an action if it is its turn, else listened for again |
| `LudoPeerModel.HostModel.Key` | `internal/games/ludo/model.go:128-185` | the host’s own keys act only on the host’s turn and in the right phase |
| `LudoPeerModel.HostModel.Quit` | `internal/games/ludo/model.go:128-150` | leaving resigns to every guest, closes every session and ends the match |
| `LudoPeerModel.GuestModel.Receive` | `internal/games/ludo/net.go:223-238` | a snapshot replaces the view, and a won one ends the match; a lost host ends it |
| `LudoPeerModel.GuestModel.Key` | `internal/games/ludo/model.go:187-233` | a guest sends a roll or a legal choice on its own turn in the right phase, and nothing otherwise |
| `LudoPeerModel.GuestModel.Quit` | `internal/games/ludo/model.go:128-150` | leaving resigns to the host, closes the session and ends the match |
| `LudoPeerModel.GuestModel.FinishWithReason` | `internal/games/ludo/model.go:319-324` | the match ends with the reason given and the session is closed |
| `LudoPeerLaws.TellsWinner` | `internal/games/ludo/model.go:298-317` | whose instance reads that it has won, and whose name the others read, whatever names repeat |
| `LudoPeerLaws.StrangerIsRed` | `internal/games/ludo/net.go:96-105` | an instance whose name is at no seat takes itself for Red |
| `LudoPeerLaws.NoWinnerNoText` | `internal/games/ludo/model.go:298-317` | without a winner there is no result text |
| `LudoPeerLaws.HostOverIsOver` | `internal/games/ludo/net.go:184-190` | a host that is done ignores every message and every key |
| `LudoPeerLaws.HostHearsDeparture` | `internal/games/ludo/net.go:184-193` | a guest that has left ends the match, told by name, every session closed |
| `LudoPeerLaws.HostHearsAction` | `internal/games/ludo/net.go:195-221` | the host carries out a roll of the guest whose turn it is whatever the phase, and its legal choice, and reports either; anything else is passed over and that guest heard again |
| `LudoPeerLaws.HostKeysExactly` | `internal/games/ludo/model.go:128-248` | the host’s keys roll when its roll is due, choose when its choice is, and do nothing else |
| `LudoPeerLaws.HostLeaves` | `internal/games/ludo/model.go:128-150` | leaving resigns to every guest and closes every session |
| `LudoPeerLaws.GuestHears` | `internal/games/ludo/net.go:223-238` | a snapshot replaces the view and a finished one ends the match; the host’s end and its loss are told apart |
| `LudoPeerLaws.GuestOverIsOver` | `internal/games/ludo/model.go:96-106` | a guest that is done ignores everything and sends nothing |
| `LudoPeerLaws.GuestKeysExactly` | `internal/games/ludo/model.go:128-235` | a guest sends a roll or a choice exactly if by its view it is its turn, that is due, and the die moves that token |
| `LudoPeerLaws.BlindGuestIsSilent` | `internal/games/ludo/model.go:128-135` | before its first snapshot a guest sends nothing |
| `LudoPeerLaws.SentInOrder` | `internal/games/ludo/net.go:171-249` | what goes on a session for a report, a won match, a departure and a resignation, in order |
| `LudoPeerLaws.CommandsExactly` | `internal/games/ludo/model.go:274-324` | the end is announced with the text the player is told, or the listener asked for is armed |
| `LudoPeerLaws.ListensExactly` | `internal/games/ludo/net.go:124-137` | the host is handed each action as sent and takes anything else for a departure; the end of a session can be read again |
| `LudoPeerLaws.HostReachesExactly` | `internal/games/ludo/net.go:171-249` | what of a host’s reaction reaches each guest still connected, in order |
| `LudoPeerLaws.GuestLeaves` | `internal/games/ludo/model.go:128-150` | a guest that leaves resigns and closes; one told of the end just closes |
| `LudoNet.StartGood` | `internal/games/ludo/net.go:59-92` | a fresh host with its guests satisfies the system invariant |
| `LudoNet.NextGood` | `internal/games/ludo/net.go:171-249` | every event of host, guests, listeners or failing connections keeps the system invariant |
| `LudoNet.HostTakesEngineSteps` | `internal/games/ludo/net.go:184-221` | whatever guests send, the host’s game changes only by an engine action of the player whose turn it is, a move only if legal, and each such action is broadcast |
| `LudoNet.GuestsFollowTheHost` | `internal/games/ludo/net.go:166-236` | a guest’s views are, one by one and none missed, what the broadcasts after the host’s successive actions showed |
| `LudoNet.ListenerCount` | `internal/games/ludo/model.go:78-94` | until the match ends every guest has one armed listener or waiting message, and the guest whose turn it is has two |
| `LudoNet.DepartureHeard` | `internal/games/ludo/net.go:118-137` | once a guest’s session has ended the host can end the match by attending to that session alone |
| `LudoNet.DepartureCannotBeMissed` | `internal/games/ludo/net.go:118-137` | and it cannot attend to that session more often than twice the messages before the end, and those taken already, and two more, without ending the match |
| `LudoNet.WonMatchOutcome` | `internal/games/ludo/model.go:298-324` | with distinct names and the final position delivered, exactly the winner’s instance reports a win, all others name it, each once |
| `LudoNet.EndAnnouncedAtMostOnce` | `internal/games/ludo/model.go:96-106` | no instance announces the end twice, and one has announced it exactly if it is done |
| `LudoChoices.KeysFitExactly` | `internal/games/ludo/model.go:128-235` | what the keys of a guest that has seen every broadcast let it send is due in the host’s position; on its own turn everything due is let through exactly if no earlier seat bears its name, and nothing otherwise |
| `LudoChoices.WaitingChoiceIsSafeExactly` | `internal/games/ludo/net.go:184-221` | for a guest that sends nothing after its choice, stays and is not cut off: the choice can come to be handled in another position than it was made in, or after a copy of it, exactly if something the guest had under way already would be carried out before it; otherwise every such run carries it out in that position, or ends the match first, or still has it on its way there |
| `LudoChoices.UsuallyAnythingSpoils` | `internal/games/ludo/net.go:184-221` | unless the choice wins, that is exactly if anything the guest has under way would be carried out in that position; refused and unknown messages are harmless |
| `LudoChoices.DriftedIsMisjudged` | `internal/games/ludo/net.go:184-221` | once the host has moved on under a choice, attending to that guest alone it can go on so that the choice is handled elsewhere |
| `LudoChoices.WaitingChoiceIsCarriedOut` | `internal/games/ludo/net.go:184-221` | a choice nothing can disturb is carried out where it was made, in every run in which the guest waits |
| `LudoOvertaking.ChoiceIsSafeExactly` | `internal/games/ludo/net.go:118-221` | finding: a choice that a guest’s keys let it make on a screen showing the host’s position can come to be handled elsewhere, before any copy of it has been carried out there, exactly if something under way can be carried out before it, or the guest has another legal choice and no copy of this one under way; otherwise every run carries it out in that position, whatever keys the guest presses, unless the match ends or the guest goes |
| `LudoOvertaking.FirstChoiceIsSafeExactly` | `internal/games/ludo/net.go:118-221` | with nothing else of that guest’s under way, that is exactly if the guest has another legal token to choose |
| `LudoOvertaking.InFrontIsMisjudged` | `internal/games/ludo/net.go:118-137` | what can be carried out first will be, if the host attends to that guest’s session in the right order |
| `LudoOvertaking.OnCourseIsCarriedOut` | `internal/games/ludo/net.go:118-221` | a choice nothing is or can get in front of is carried out where it was made in every run in which the guest presses keys as it likes, stays or leaves |
| `LudoHaste.HastyGuestHoldsTheTurn` | `internal/games/ludo/net.go:184-200` | in every match whose first guest does not bear the host’s name, that guest can make any number of rolls in one turn by keys its screen lets through, rolls made under a pending choice included |
| `LudoHaste.DoubleRoll` | `internal/games/ludo/model.go:187-197` | in every such match there is a run in which the first guest presses the roll key twice, sees its six, and makes a legal choice that can be handled after the second roll |
| `LudoHaste.DoubleChoice` | `internal/games/ludo/model.go:209-235` | in every such match there is a run in which the first guest chooses two tokens from one view, and the second choice can be handled after the first has been carried out |
| `LudoHaste.Overtaking` | `internal/games/ludo/net.go:118-137` | in every such match there is a run in which the first guest chooses a token with nothing else under way, and a second choice made before the answer can be carried out first |
| `TicTacToe.WinnerExact` | `internal/games/tictactoe/board.go:41-57` | there is a winner exactly if somebody holds a whole line, and the winner holds one |
| `TicTacToe.OnlyTheMoverCanWin` | `internal/games/tictactoe/board.go:49-57` | placing a mark can complete lines of that mark only |
| `TicTacToe.EndIsAnnouncedExactly` | `internal/games/tictactoe/model.go:85-223` | finding: every reaction that ends the match announces it, except the report of a failed send, which ends it in silence |
| `TicTacToeLaws.StartsEmpty` | `internal/games/tictactoe/model.go:54-63` | nine empty squares, X to move, nothing decided |
| `TicTacToeLaws.LinesListed` | `internal/games/tictactoe/board.go:36-47` | three squares are listed as a line exactly if they are of one row, one column or one diagonal |
| `TicTacToeLaws.WinnerByGeometry` | `internal/games/tictactoe/board.go:49-57` | there is a winner exactly if some player holds three squares in line, by rows, columns and diagonals, and the winner does |
| `TicTacToeLaws.FullExactly` | `internal/games/tictactoe/board.go:59-67` | a board is full exactly if no square is empty |
| `TicTacToeLaws.OverIsOver` | `internal/games/tictactoe/model.go:101-223` | a match that is over ignores keys and events |
| `TicTacToeLaws.PlacingExactly` | `internal/games/tictactoe/model.go:137-171` | a mark goes on an empty square on its player’s turn only; three in line win, a full board draws, either is sent before the close; otherwise the opponent is to move and the move is sent later |
| `TicTacToeLaws.ArrivalExactly` | `internal/games/tictactoe/model.go:185-209` | an arriving move that completes a line ends the match for whoever holds it, a full board draws, otherwise it is this player’s turn |
| `TicTacToeLaws.EndingsExactly` | `internal/games/tictactoe/model.go:91-223` | what resigning, being resigned to, losing the connection and a failed send lead to |
| `TicTacToeModel.Model.constructor` | `internal/games/tictactoe/model.go:54-63` | an empty board, X to move |
| `TicTacToeModel.Model.AttemptMove` | `internal/games/tictactoe/model.go:137-171` | refused out of turn or on a taken square; a move that ends the match is sent and the session closed at once, any other is sent later |
| `TicTacToeModel.Model.HandleKey` | `internal/games/tictactoe/model.go:101-135` | keys do nothing once done; quitting resigns and closes; a placement is attempted |
| `TicTacToeModel.Model.HandleEvent` | `internal/games/tictactoe/model.go:173-223` | the endpoint, what it sends and what it asks for next, for every kind of event |
| `TicTacToeModel.Model.MoveSent` | `internal/games/tictactoe/model.go:91-96` | a failed send ends the match and asks for nothing |
| `TicTacToeNet.LegalGames` | `internal/games/tictactoe/model.go:137-171` | a legal game fills one square a move, has nine at most, and can only have been won by its last mover |
| `TicTacToeNet.MoverIsUpToDate` | `internal/games/tictactoe/model.go:137-147` | a player who may move has seen every move, and so has the opponent |
| `TicTacToeNet.PlaceGood` | `internal/games/tictactoe/model.go:137-171` | a placement keeps the system invariant |
| `TicTacToeNet.HandledMove` | `internal/games/tictactoe/model.go:185-209` | a move that arrives is the one missing, lands on an empty square, and never makes the receiver the winner |
| `TicTacToeNet.HandleGood` | `internal/games/tictactoe/model.go:173-223` | handling any event keeps the system invariant |
| `TicTacToeNet.NextGood` | `internal/games/tictactoe/model.go:65-223` | every event of either endpoint or of the connection keeps the system invariant |
| `TicTacToeNet.BoardsAgree` | `internal/games/tictactoe/model.go:137-223` | in every run, resignations and failures included: the moves made are a legal game, each board shows all of them or all but a last one of the opponent’s, and the two players are never both to move |
| `TicTacToeNet.OneWinnerAtMost` | `internal/games/tictactoe/model.go:137-223` | in every run each player is told of the end at most once, and never both that they won |
| `TicTacToeNet.ResultsFit` | `internal/games/tictactoe/model.go:137-223` | when nobody resigns and the connection holds, two finished players see the same finished board and were told a win and a loss or two draws |
| `TicTacToeNet.LastMoveArrives` | `internal/games/tictactoe/model.go:149-167` | then a player still waiting has the deciding move next and learns the fitting result from it |
| `TicTacToeNet.FailedSendIsSilent` | `internal/games/tictactoe/model.go:91-96` | a run in which a player’s match ends without the player being told |
| `TicTacToeNet.ToldUnlessSilenced` | `internal/games/tictactoe/model.go:91-96` | in every run a finished player has been told exactly if no failed send was reported before anything else ended the match |
| `RelayHub.Outbox.Offer` | `internal/relay/hub.go:63-68` | an envelope is appended exactly if there is room for it |
| `RelayHub.Hub.Join` | `internal/relay/hub.go:30-39` | a handle is registered unless it already is |
| `RelayHub.Hub.Leave` | `internal/relay/hub.go:45-51` | a registration is withdrawn exactly if this outbox made it |
| `RelayHub.Hub.Send` | `internal/relay/hub.go:56-69` | the envelope joins the outbox registered for the handle, if there is one with room, and nothing else changes |
| `RelayStore.NewDbConsistent` | `internal/relay/pgstore.go:24-115` | an empty database satisfies every ledger |
| `RelayStore.UsersKept` | `internal/relay/pgstore.go:154-192` | handles stay unique and the index exact |
| `RelayStore.OrgsKept` | `internal/relay/pgstore.go:230-250` | every organization keeps its owner as its only administrator |
| `RelayStore.InvitesKept` | `internal/relay/pgstore.go:347-411` | a code has admitted as many users as it counts uses, one at most |
| `RelayStore.AuthorityKept` | `internal/relay/orgs.go:30-66` | organizations stay owned by system administrators, codes come from owners, todos from members |
| `RelayStore.CountsKept` | `internal/relay/pgstore.go:230-411` | every organization keeps one member more than it has spent codes |
| `RelayStore.LedgerKept` | `internal/relay/pgstore.go:441-558` | balances, purchases and what is equipped stay as the journal says |
| `RelayStore.ApplyConsistent` | `internal/relay/pgstore.go:154-624` | every transaction the layers above issue keeps every ledger |
| `RelayStore.ApplyGrows` | `internal/relay/pgstore.go:154-624` | no transaction takes back an account, a right, a membership, a code or an unlock |
| `RelayStore.HistoryConsistent` | `internal/relay/pgstore.go:154-624` | so does every history of transactions |
| `RelayStore.MembershipLedger` | `internal/relay/pgstore.go:230-411` | after any history: members = 1 + spent codes; only the owner administers; codes are the owner’s and admit one user at most |
| `RelayStore.PointsLedger` | `internal/relay/pgstore.go:441-547` | after any history: points = messages paid + 5 × todos paid − the catalogue prices of all that is unlocked, never negative; what was spent is that sum; each unlock bought once at its price; what is equipped is unlocked |
| `RelayStore.SpentKept` | `internal/relay/pgstore.go:499-547` | every transaction keeps what each user has spent equal to the summed prices of what the user has unlocked |
| `RelayStore.MatesAreSharers` | `internal/relay/pgstore.go:288-330` | the handles whose presence a user sees are exactly those of the others with whom relaying is allowed |
| `RelayStore.SharingIsMutual` | `internal/relay/pgstore.go:316-330` | sharing an organization is mutual |
| `RelayStore.SharingLasts` | `internal/relay/pgstore.go:316-411` | two users who share an organization always will |
| `RelayStore.CodeAdmitsInTime` | `internal/relay/orgs.go:48-71` | a code admits to its own organization, only a user not yet in it, once, and only within seven days |
| `RelayStore.TodoPaysEveryTime` | `internal/relay/todos.go:48-60` | finding: after any number of completions, completing a shared todo pays five points again exactly if the user is a member, the todo is that organization’s and the user has a profile, though it is done already |
| `RelayStoreLaws.RegistersExactly` | `internal/relay/pgstore.go:154-184` | a free handle gets a fresh account found under it from then on, all others found as before; a used one is refused |
| `RelayStoreLaws.PromotesExactly` | `internal/relay/pgstore.go:171-192` | that account is an administrator’s from then on, and no other becomes one |
| `RelayStoreLaws.MakesProfileExactly` | `internal/relay/pgstore.go:413-423` | an account without a profile gets one with no points; no other user’s changes |
| `RelayStoreLaws.FoundsExactly` | `internal/relay/pgstore.go:230-250` | a new organization has its owner as its one member and administrator; all other memberships stand |
| `RelayStoreLaws.InvitesExactly` | `internal/relay/pgstore.go:347-356` | a code not in use admits until it expires; all other codes as before |
| `RelayStoreLaws.RedeemableExactly` | `internal/relay/pgstore.go:358-380` | a code admits exactly if it is known, has not expired and the journal shows nobody admitted on it |
| `RelayStoreLaws.AdmitsExactly` | `internal/relay/pgstore.go:358-411` | why a code is refused, in order, or who is a member afterwards: the user, not as administrator, and whoever was |
| `RelayStoreLaws.AdmitsOnce` | `internal/relay/pgstore.go:358-411` | a code that has admitted somebody admits nobody at any later time; the other codes do as before |
| `RelayStoreLaws.MembersListed` | `internal/relay/pgstore.go:276-302` | the handles listed for an organization are exactly those of its members |
| `RelayStoreLaws.PaysExactly` | `internal/relay/pgstore.go:441-450` | a user with a profile has that much more, nobody else anything |
| `RelayStoreLaws.SellsExactly` | `internal/relay/pgstore.go:499-547` | why a purchase is refused, in order, or who has what afterwards |
| `RelayStoreLaws.DressesExactly` | `internal/relay/pgstore.go:549-558` | who wears what afterwards, and when it is refused |
| `RelayStoreLaws.AddsTodoExactly` | `internal/relay/pgstore.go:572-583` | an open todo under a number of its own, the others as they were |
| `RelayStoreLaws.CompletesExactly` | `internal/relay/pgstore.go:608-624` | the organization’s own todo is done, and no other changes |
| `RelayStoreLaws.CompletionPaysFive` | `internal/relay/todos.go:48-60` | who completes a todo of an organization they belong to has five points more; every other case changes nothing, and which error |
| `RelayStoreModel.PGStore.CreateUser` | `internal/relay/pgstore.go:154-169` | a new account under a free handle, and the taken-handle error otherwise |
| `RelayStoreModel.PGStore.PromoteToAdmin` | `internal/relay/pgstore.go:186-192` | the account becomes an administrator, if there is one |
| `RelayStoreModel.PGStore.CreateOrg` | `internal/relay/pgstore.go:230-250` | organization and owner’s membership appear together or not at all |
| `RelayStoreModel.PGStore.CreateOrgInvite` | `internal/relay/pgstore.go:347-356` | a new single-use code, refused if it exists |
| `RelayStoreModel.PGStore.RedeemOrgInvite` | `internal/relay/pgstore.go:358-411` | the errors in their order, or membership and use count together |
| `RelayStoreModel.PGStore.AddPoints` | `internal/relay/pgstore.go:441-450` | the balance changes by the amount; without a profile nothing does |
| `RelayStoreModel.PGStore.RedeemUnlockable` | `internal/relay/pgstore.go:499-547` | the errors in their order, or price paid and unlock recorded together |
| `RelayStoreModel.PGStore.SetActiveUnlockable` | `internal/relay/pgstore.go:549-558` | the equipped item changes; without a profile nothing does |
| `RelayStoreModel.PGStore.CreateTodo` | `internal/relay/pgstore.go:572-583` | a new open todo of the organization |
| `RelayStoreModel.PGStore.CompleteTodo` | `internal/relay/pgstore.go:608-624` | the todo of that organization is done, or the not-found error |
| `RelayStoreModel.Orgs.Create` | `internal/relay/orgs.go:30-39` | only a system administrator, and only with a name that is not blank |
| `RelayStoreModel.Orgs.Invite` | `internal/relay/orgs.go:48-66` | only an administrator of the organization; the code lives seven days |
| `RelayStoreModel.Points.SetActive` | `internal/relay/points.go:67-76` | equips only what is unlocked |
| `RelayStoreModel.Todos.Add` | `internal/relay/todos.go:25-34` | blank text and outsiders are refused, in that order |
| `RelayStoreModel.Todos.Complete` | `internal/relay/todos.go:48-60` | outsiders are refused; a todo that is there is done and pays whoever completed it; one that is not pays nobody |
| `RelayServer.StartGood` | `internal/relay/server.go:44-56` | a server without connections satisfies the invariant |
| `RelayServer.JoinsHubGood` | `internal/relay/server.go:238-257` | registering a signed-in connection, or being refused, keeps the invariant |
| `RelayServer.LeavesHubGood` | `internal/relay/server.go:105-118` | leaving keeps the invariant |
| `RelayServer.PutIsProper` | `internal/relay/server.go:408-434` | an envelope about to be put is stamped, addressed and allowed, though the check was made earlier |
| `RelayServer.MatesShare` | `internal/relay/server.go:246-254` | everybody presence is told to shares an organization with the user it is about |
| `RelayServer.NextGood` | `internal/relay/server.go:97-454` | every step of every handler, whatever runs in between, keeps the invariant |
| `RelayServer.RegistryIsExact` | `internal/relay/server.go:97-163` | in every interleaving a handle is registered to an outbox exactly if that connection joined under it and has not left |
| `RelayServer.OneHandlePerOutbox` | `internal/relay/server.go:141-163` | an outbox that has been registered under a handle is never registered under another |
| `RelayServer.LeavingTakesOnlyItsOwn` | `internal/relay/server.go:110-118` | leaving takes away the connection’s own registration and no other |
| `RelayServer.RelayIsGated` | `internal/relay/server.go:408-454` | in every interleaving everything one connection puts on another’s outbox carries the sender’s handle, goes to an outbox registered for the target, and passes between users who share an organization at that moment; no message is on an outbox otherwise |
| `RelayServer.NextTransacts` | `internal/relay/server.go:261-454` | a step makes at most one transaction, and only after what it must check has been checked |
| `RelayServer.ServerMakesHistory` | `internal/relay/server.go:97-454` | in every interleaving the database has been through a history of allowed transactions, so both ledgers hold |
| `RelayRequests.StepsAreRun` | `internal/relay/server.go:97-163` | a handler’s uninterrupted steps are a run of the server |
| `RelayRequests.RelaysExactly` | `internal/relay/server.go:408-434` | a request to relay, uninterrupted, from every state of the invariant: if the target is registered, shares an organization with the sender, is online and has room, its outbox gains the message under the sender’s handle, the delivery is recorded and the sender has one point more; otherwise the sender is answered and nothing else changes |
| `RelayRequests.FoundsExactly` | `internal/relay/orgs.go:30-39` | a request to found an organization: made for a system administrator and a name not blank, trimmed; answered either way |
| `RelayRequests.InvitesExactly` | `internal/relay/orgs.go:48-66` | a request for a code: made for an administrator of the organization, for 604800 seconds; answered either way |
| `RelayRequests.JoinsExactly` | `internal/relay/server.go:295-302` | a code redeemed for whoever asks, who is then told who is there, or refused |
| `RelayRequests.RedeemsExactly` | `internal/relay/server.go:309-314` | an unlockable bought for whoever asks |
| `RelayRequests.EquipsExactly` | `internal/relay/points.go:67-76` | only what is unlocked is equipped |
| `RelayRequests.AddsExactly` | `internal/relay/todos.go:25-34` | a todo added for a member, of the trimmed text if it is not blank |
| `RelayRequests.CompletesExactly` | `internal/relay/todos.go:48-60` | a todo completed for a member, and paid |
| `RelayRequests.SignsInExactly` | `internal/relay/server.go:238-257` | a free handle is registered to the connection, answered, and the others are told; a taken one is refused |
| `RelayRequests.LeavesExactly` | `internal/relay/server.go:105-118` | leaving gives up the handle if it is this connection’s, and the others are told |
| `RelayRequests.ToldExactly` | `internal/relay/server.go:246-254` | who is told: everybody else sharing an organization, or every other member of the one joined |
| `RelayRequests.TellsNext` | `internal/relay/server.go:437-454` | the next user to be told has been told within four steps, or is offline |
| `RelayRequests.TellsAll` | `internal/relay/server.go:437-454` | the handler gets through the list and is done |
| `RelayRequests.EverybodyIsTold` | `internal/relay/server.go:437-454` | each connection on the list with room gains the one envelope, and no other connection anything |
| `RelayRequests.DepartureIsTold` | `internal/relay/server.go:105-118` | a connection that hangs up is forgotten, and of the others exactly those online, in an organization with it and with room gain the news |
| `RelayRequests.ArrivalIsTold` | `internal/relay/server.go:238-257` | a newcomer is registered, and of the others exactly those online, in an organization with it and with room gain the news |
| `RelayRequests.RegisteredSignsIn` | `internal/relay/pgstore.go:154-192` | an account registered elsewhere can sign in, is an administrator once promoted, and has a profile once made |
| `RelayRequests.DeliveredOncePerRequest` | `internal/relay/server.go:408-434` | in every interleaving a message is delivered to a target at most as often as that connection asked for that message to that target |
| `RelayLeaving.OwnEventIsNearer` | `internal/relay/server.go:97-160` | whatever a signed-in connection that gets no more requests does next brings it nearer to leaving |
| `RelayLeaving.StuckExactly` | `internal/relay/server.go:97-160` | such a connection can do nothing exactly if its writer has stopped on a failed write, its outbox is full and its handler waits for room |
| `RelayLeaving.LeavesOrSticks` | `internal/relay/server.go:97-160` | left to itself it comes to leave the registry or to be stuck like that, and to leave if its writer still writes |
| `RelayLeaving.StuckForGood` | `internal/relay/server.go:97-160` | finding: in every run one that is stuck stays stuck and its handle stays taken |
| `RelayLeaving.CanGetStuck` | `internal/relay/server.go:119-160` | wherever a signed-in connection waits for requests, a failed write and requests can get it stuck |
| `RelayAwards.NextUnpaid` | `internal/relay/server.go:408-434` | of all steps of all handlers only an award that finds no profile leaves one more delivered message unpaid; nothing else changes how many are |
| `RelayAwards.PaidMessagesWereDelivered` | `internal/relay/server.go:426-434` | in every interleaving the messages a user’s own connections delivered, each between users who share an organization, are exactly those paid for, those about to be, and those whose award found no profile |
| `RelayAwards.WithProfileAllPaid` | `internal/relay/server.go:426-434` | a user who has a profile before delivering anything is paid for exactly what was delivered, but for awards still to come |
| `Lobby.WaitsForAll` | `internal/ui/model.go:1197-1220` | until the last answer the lobby only records, whatever the order |
| `Lobby.ResolvedExactlyAtLast` | `internal/ui/model.go:1216-1221` | every slot is resolved exactly when every invited peer has answered |
| `Lobby.OpenedExactly` | `internal/ui/model.go:1223-1229` | the sessions closed are those opened, none twice |
| `Lobby.AllOrNothing` | `internal/ui/model.go:1197-1238` | at the last answer the match starts with all sessions in seat order if all accepted, and otherwise exactly the sessions opened are closed |
| `Lobby.FirstRefusalIsQuoted` | `internal/ui/model.go:1203-1238` | a match called off quotes the first peer to refuse, in order of arrival: its error, its reason, or that it declined |
| `Lobby.StaleAnswersIgnored` | `internal/ui/model.go:1197-1202` | an answer to no lobby, or to a slot there is not, changes nothing |
| `Lobby.OpenedInSeatOrder` | `internal/ui/model.go:1223-1229` | the sessions closed are those of the first seats followed by those of the rest |
| `Lobby.OpenedOne` | `internal/ui/model.go:1223-1229` | of one seat, its session if it has one |
| `Lobby.OrderDoesNotMatter` | `internal/ui/model.go:1197-1238` | decision, sessions started with and sessions closed do not depend on the order of the answers |
| `LobbyModel.Lobby.constructor` | `internal/ui/model.go:1184-1188` | a slot for every target, none resolved |
| `LobbyModel.Lobby.Record` | `internal/ui/model.go:1203-1214` | the slot is filled, and the first refusal gives the reason |
| `LobbyModel.Lobby.AllResolved` | `internal/ui/model.go:1216-1220` | whether every slot is resolved |
| `LobbyModel.Lobby.CloseAll` | `internal/ui/model.go:1223-1229` | every session in a slot is resigned and closed, once |
| `LobbyModel.Chat.StartLobby` | `internal/ui/model.go:1157-1191` | a pending lobby, too many names or an unknown name start nothing; otherwise one invitation per target, in order |
| `LobbyModel.Chat.HandleAnswer` | `internal/ui/model.go:1197-1238` | lobby and effects are those of the specification, and exactly the sessions it says are closed have been sent anything |
| `Text.TrimsExactly` | `internal/ui/onboarding/model.go:520-521` | what is taken off a text is white space at its ends, and none is left there |
| `Text.BytesAndCharacters` | `internal/ui/onboarding/model.go:521-528` | a text has as many bytes as characters exactly if it is ASCII, and otherwise more |
| `Onboarding.CommitKeeps` | `internal/ui/onboarding/model.go:589-598` | recording an answer moves to the next field, or submits |
| `Onboarding.RetreatKeeps` | `internal/ui/onboarding/model.go:501-512` | going back takes one answer off and shows it again |
| `Onboarding.ChoiceKeeps` | `internal/ui/onboarding/model.go:571-585` | choosing a question records it; skipping records an empty question and an empty answer |
| `Onboarding.TextKeeps` | `internal/ui/onboarding/model.go:514-565` | a text field passes only what its rules allow; a new handle is checked first |
| `Onboarding.KeyKeeps` | `internal/ui/onboarding/model.go:335-496` | while a reply is awaited keys change nothing; otherwise a key leaves the screen in order and asks for at most one thing |
| `Onboarding.ReplyKeeps` | `internal/ui/onboarding/model.go:263-327` | every reply leaves the screen in order |
| `Onboarding.NextSound` | `internal/ui/onboarding/model.go:263-624` | every key and every reply keeps the invariant |
| `Onboarding.WizardDiscipline` | `internal/ui/onboarding/model.go:457-624` | in every run: no read out of range, one answer per field passed, a field left to fill until submission, at most one request under way |
| `Onboarding.RegistrationsAreInOrder` | `internal/ui/onboarding/model.go:605-614` | every registration ever submitted: password of at least six bytes equal to its confirmation (six characters if ASCII, two in any case), a handle, and question and answer both empty or both not |
| `Onboarding.ShortPasswordsExactly` | `internal/ui/onboarding/model.go:521-528` | finding: a password is refused when it has fewer than six characters, and only then, exactly unless its fewer than six characters take six bytes or more |
| `Onboarding.TwoCharactersPass` | `internal/ui/onboarding/model.go:521-528` | two characters of four bytes each are a password long enough |
| `OnboardingLaws.AvailabilityExactly` | `internal/ui/onboarding/model.go:317-327` | a handle called free is recorded and the password comes next; one called taken is complained of as taken, and a failed check as a failure, with answers and field as they were |
| `OnboardingLaws.OnlyFreeHandlesAreRegistered` | `internal/ui/onboarding/model.go:317-327` | in every run, every handle submitted for registration was called free by an earlier reply to a check of that very handle |
| `OnboardingLaws.DialsExactly` | `internal/ui/onboarding/model.go:269-281` | a failed dial, one with a saved token to resume, and one without |
| `OnboardingLaws.AuthenticatesExactly` | `internal/ui/onboarding/model.go:283-305` | success authenticates; failure goes back to the menu, with a complaint and without the saved token |
| `OnboardingLaws.RecoversExactly` | `internal/ui/onboarding/model.go:307-315` | a security question starts the second recovery wizard, a failure goes back to the menu |
| `OnboardingLaws.WelcomesExactly` | `internal/ui/onboarding/model.go:357-393` | the three entries of the menu and where each leads |
| `OnboardingLaws.WaitsExactly` | `internal/ui/onboarding/model.go:335-466` | keys change nothing while the screen waits; after a failed dial Enter dials again |
| `OnboardingLaws.LoginExactly` | `internal/ui/onboarding/model.go:514-603` | each field of the login wizard: what is refused, recorded and submitted |
| `OnboardingLaws.RegisterStartsExactly` | `internal/ui/onboarding/model.go:514-565` | handle, password and confirmation: required, checked, fewer than six bytes, not equal, or recorded |
| `OnboardingLaws.PictureExactly` | `internal/ui/onboarding/model.go:546-565` | the picture may be left out; one that cannot be read is refused |
| `OnboardingLaws.QuestionExactly` | `internal/ui/onboarding/model.go:571-598` | one of ten questions is recorded; the last entry submits the registration without any |
| `OnboardingLaws.RegisterEndsExactly` | `internal/ui/onboarding/model.go:589-614` | the answer is required, and the registration submitted of the six answers |
| `OnboardingLaws.RecoverStartsExactly` | `internal/ui/onboarding/model.go:514-620` | the handle to recover is required and asked about |
| `OnboardingLaws.RecoverEndsExactly` | `internal/ui/onboarding/model.go:514-624` | answer and new password: required, fewer than six bytes, or submitted for the handle asked about |
| `OnboardingLaws.BackExactly` | `internal/ui/onboarding/model.go:501-512` | one field back with its answer shown, or out to the menu |
| `OnboardingLaws.BackToTheQuestion` | `internal/ui/onboarding/model.go:419-455` | going back to the questions shows the one chosen |
| `OnboardingLaws.EditsExactly` | `internal/ui/onboarding/model.go:457-496` | text goes into text fields; the arrows move along the questions within bounds |
| `OnboardingModel.Model.constructor` | `internal/ui/onboarding/model.go:159-170` | a new screen is connecting |
| `OnboardingModel.Model.ResetInputWithValue` | `internal/ui/onboarding/model.go:419-455` | the field shows the value given, a menu its index, a first field the handle |
| `OnboardingModel.Model.Begin` | `internal/ui/onboarding/model.go:383-405` | the wizard starts at its first field with no answers |
| `OnboardingModel.Model.RetreatWizard` | `internal/ui/onboarding/model.go:501-512` | one field back with its answer restored, or out of the wizard from the first field |
| `OnboardingModel.Model.SubmitWizard` | `internal/ui/onboarding/model.go:600-624` | what is asked of the server, made of the answers |
| `OnboardingModel.Model.CommitAnswer` | `internal/ui/onboarding/model.go:589-598` | the answer is appended and the next field shown, or the answers are submitted |
| `OnboardingModel.Model.AdvanceChoiceField` | `internal/ui/onboarding/model.go:571-585` | the highlighted question is committed; skipping commits two empty answers |
| `OnboardingModel.Model.AdvanceWizard` | `internal/ui/onboarding/model.go:514-565` | required, length, confirmation and picture rules in their order; a new handle is asked about first |
| `OnboardingModel.Model.HandleWelcomeKey` | `internal/ui/onboarding/model.go:359-381` | the menu moves within its bounds and starts the wizard chosen |
| `OnboardingModel.Model.HandleWizardKey` | `internal/ui/onboarding/model.go:457-496` | ignored while a reply is awaited; otherwise keys edit, go back or advance |
| `OnboardingModel.Model.HandleKey` | `internal/ui/onboarding/model.go:335-353` | keys act according to the step the screen is at |
| `OnboardingModel.Model.HandleReply` | `internal/ui/onboarding/model.go:263-327` | each reply moves the screen on, back to the menu, or into the second recovery wizard |
| `AsciiArt.CutsAdvance` | `internal/asciiart/asciiart.go:64-71` | the cuts start at 0, never go back and end at the full length; they advance each time if there are no more boxes than pixels |
| `AsciiArt.BoxesWithin` | `internal/asciiart/asciiart.go:64-75` | every box is nonempty and within the image, whatever its size and the number of columns |
| `AsciiArt.TilesExactlyWhenNoMore` | `internal/asciiart/asciiart.go:64-75` | every pixel lies in exactly one box exactly if there are no more boxes than pixels |
| `AsciiArt.RowsWithinHeight` | `internal/asciiart/asciiart.go:57-60` | with at most twice as many columns as the image is wide, no more lines than it is high |
| `AsciiArt.PixelsCountOnce` | `internal/asciiart/asciiart.go:47-80` | with no more columns than the image is wide, the boxes tile it both ways, and any quantity summed over the boxes is its sum over the image |
| `AsciiArt.AreaIsSumOfOnes` | `internal/asciiart/asciiart.go:64-75` | the area of a box is such a sum |
| `AsciiArt.AverageLuminance` | `internal/asciiart/asciiart.go:84-100` | the mean luminance of the box, 0 for an empty one |
| `AsciiArt.AverageBetween` | `internal/asciiart/asciiart.go:84-111` | a character lies between those of the darkest and the brightest pixel it covers |
| `AsciiArt.RampIndex` | `internal/asciiart/asciiart.go:102-111` | an index into the ramp, whatever the luminance |
| `AsciiArt.RampIsMonotone` | `internal/asciiart/asciiart.go:102-111` | brighter never renders darker; black and white are the ends of the ramp |
| `AsciiArt.BoxEdges` | `internal/asciiart/asciiart.go:64-74` | where a box starts and ends |
| `AsciiArt.RenderLine` | `internal/asciiart/asciiart.go:69-77` | a line is one character per column, that of its box |
| `AsciiArt.FromImage` | `internal/asciiart/asciiart.go:47-80` | exactly the computed number of lines of exactly `cols` characters, nothing after the last; nothing at all for an empty image |
| `AsciiArtLaws.RowsExactly` | `internal/asciiart/asciiart.go:57-60` | the number of lines is the height times the columns divided by twice the width, rounded down, but one at least |
| `AsciiArtLaws.LuminanceExactly` | `internal/asciiart/asciiart.go:90-93` | 0.299, 0.587 and 0.114 of the three components, in exact parts of the brightest |
| `AsciiArtLaws.BoxOfOne` | `internal/asciiart/asciiart.go:84-95` | the sum over one pixel; with splitting across and down it fixes the sum over every box |
| `AsciiArtLaws.CharacterExactly` | `internal/asciiart/asciiart.go:13-16` | each tenth of the scale has its own of the ten characters |
| `AsciiArtLaws.CellExactly` | `internal/asciiart/asciiart.go:64-77` | a character shows the mean luminance of the pixels between its integer cuts, one at least |
| `AsciiArtLaws.PictureExactly` | `internal/asciiart/asciiart.go:62-80` | where each character and each end of line is in the text, and how long that is |

## Left out

- Sockets, TLS, discovery, timeouts and JSON: sessions are queues in order, and a closed one ends for good; what a snapshot keeps of a match is modelled, its encoding is not.
- Rendering, status lines, warnings, key names and cursor movement in the games.
- Grid coordinates of the Ludo board (`rotateCW`, `TrackCellCoord` and the like): finite tables.
- Local Ludo play against the computer (`aiStep`, the delay between its moves): its choice and the engine it drives are modelled, the screen is not.
- The order in which a host goes through its sessions: the source walks a map, the model a sequence; every session is sent the same things either way.
- LudoOvertaking.ChoiceIsSafeExactly: while none but actions of that guest's are under way when it chooses; what the host reads as its departure may follow.
- LudoChoices.WaitingChoiceIsSafeExactly: for a guest that adds nothing once it has chosen; the general case is `LudoOvertaking.ChoiceIsSafeExactly`.
- GameSession.Session: the errors that sending, resigning and closing may return are not modelled; the games ignore them, but for the move report of tic-tac-toe, which is modelled.
- LudoFairness.EverySeatRolls: for runs that roll only when a roll is due, because the unchecked roll of a guest breaks it.
- Passwords, password hashes, session tokens and their expiry, security questions at the server: signing in is an event that may happen for any registered account.
- Handle normalisation: handles are taken as normalised already.
- The isolation of Postgres transactions: each is one event. A failing database is not modelled.
- RelayStoreModel.PGStore.constructor: the catalogue is a parameter, so the five seeded entries are one instance.
- RelayStoreModel.PGStore.CreateUserProfile: a profile has its points and what is equipped; picture, security question and answer hash are dropped.
- RelayRequests.RelaysExactly: for a handler nothing interrupts; with others running in between, `RelayServer.RelayIsGated`, `RelayRequests.DeliveredOncePerRequest` and `RelayAwards.PaidMessagesWereDelivered` say what every run keeps.
- RelayRequests.ArrivalIsTold: while the newcomer’s outbox has room for its answer and every greeting; beyond that its handler waits for its writer.
- Presence lists at the clients: envelopes for a full outbox are dropped, so they need not agree with the registry.
- Read-only requests (bio, lists) are answers without content.
- The relay client's matching of replies to requests.
- Personal todos, message history, configuration, the peer registry and file transfer.
- Lobby.AllOrNothing: each invited peer's answer reaches the lobby once, as each invitation sends one.
- Prompts and hints of the wizard, and the text of its complaints beyond their kind.
- AsciiArt.FromImage: over the reals, so the rounding of floating point in the number of lines and in the mean is not captured; opening and decoding files is left out.
- AsciiArt.RowsWithinHeight: the number of lines is computed over the reals, not in floating point.
- AsciiArt.AverageLuminance: the mean is taken over the reals, not in floating point.
- AsciiArt.AverageBetween: the mean is taken over the reals; in floating point the mean of equal pixels can be rounded below them and fall to the darker neighbour in the ramp.
