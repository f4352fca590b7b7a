# Casino-Virtual BlackJack table and user account, in Dafny

This project models two parts of the Casino-Virtual server and proves properties about them.

- **The BlackJack table** (`BlackJack.py`), in `blackjack.dfy`:
  - the rank-to-points table;
  - hand scoring, where an ace is lowered by 10 at most once;
  - the ordered winner rule (`ganador`);
  - dealing from an infinite shoe;
  - each player's hit/stand loop, driven by console answers;
  - the dealer's draw-to-17 loop;
  - a whole round for four seats (`inicializar_juego`).
- **The user account** (`Usuario.py`), in `users.dfy`:
  - the field validators;
  - the VIP flag, which the balance rule sets;
  - ID generation from the initials and a three-digit number;
  - the in-memory effect of the balance, stake and history updates;
  - the dictionary form of an account (`to_dict`/`from_dict`).
- `results.dfy` holds the `Option` and `Result` types the other two modules use.

The following are abstracted:
- **Random choices.** A card drawn from the shoe is a nondeterministic choice among the 13 table keys (`Draw`). The number in a generated ID is an `IdNumber` parameter in 100..999.
- **Console input.** The answers typed at the console are a sequence of strings. When the sequence runs out, that plays the role of `input()` raising `EOFError`, and the round ends with `EndOfInput`.
- **Python's `ValueError`.** Each setter or update returns the error it would raise, and leaves the object unchanged when it does.

Loop methods are proved against relational specifications:
- `TurnPlays` is a recursive predicate that says how one turn can consume answers and draw cards.
- `DealerFinished` says how the dealer's loop can leave a hand.
- `RoundPlays` says how a whole round can end.

Lemmas then prove what the source promises about these specifications.

BlackJack.py has no game-room lifecycle, no timeout on a player's answer and no tie policy; the model follows the code. In particular:
- A tie below 21 yields no outcome (`None`).
- A player turn has no timeout. It ends only by standing or by running out of answers.
- Room capacity and seating live in the superclass `JuegoDeCartas`, which is not part of this model.

## Model

| member | source | states |
|---|---|---|
| `BlackJack.CardTableRanks` | src/model/salaDeJuego/juego/juegosDeCartas/BlackJack.py:8-9 | the table's keys are exactly the 13 labels "2"–"10", "J", "Q", "K", "A" |
| `BlackJack.RanksCount` | src/model/salaDeJuego/juego/juegosDeCartas/BlackJack.py:8-9 | the 13 rank labels are pairwise distinct |
| `BlackJack.CardTableValues` | src/model/salaDeJuego/juego/juegosDeCartas/BlackJack.py:8-9 | "2"–"10" are worth their face value, J/Q/K 10 and A 11 |
| `BlackJack.CardValueRange` | src/model/salaDeJuego/juego/juegosDeCartas/BlackJack.py:8-9 | every rank is worth between 2 and 11 |
| `BlackJack.RawSum` | src/model/salaDeJuego/juego/juegosDeCartas/BlackJack.py:34 | the plain sum of a hand lies between 2 and 11 points per card |
| `BlackJack.RawSumAppend` | src/model/salaDeJuego/juego/juegosDeCartas/BlackJack.py:34 | appending a card adds exactly its table value to the plain sum |
| `BlackJack.Score` | src/model/salaDeJuego/juego/juegosDeCartas/BlackJack.py:32-38 | for every hand, raw − 10 ≤ score ≤ raw |
| `BlackJack.ScoreWithoutAce` | src/model/salaDeJuego/juego/juegosDeCartas/BlackJack.py:34-38 | a hand without an ace scores its plain sum |
| `BlackJack.ScoreAdjustment` | src/model/salaDeJuego/juego/juegosDeCartas/BlackJack.py:36-37 | at or below 21 the score is the raw sum; above 21 it is raw − 10 if and only if the hand holds an ace |
| `BlackJack.HasAceIffCount` | src/model/salaDeJuego/juego/juegosDeCartas/BlackJack.py:36 | a hand holds an ace exactly when its ace count is positive |
| `BlackJack.SingleAceAgrees` | src/model/salaDeJuego/juego/juegosDeCartas/BlackJack.py:36-37 | with at most one ace, the score equals the usual soft-ace score (`StandardScore`, an independent reference) |
| `BlackJack.AcesRawSum` | src/model/salaDeJuego/juego/juegosDeCartas/BlackJack.py:34 | n aces have a plain sum of 11·n |
| `BlackJack.AcesScore` | src/model/salaDeJuego/juego/juegosDeCartas/BlackJack.py:36-37 | n ≥ 2 aces score 11·n − 10: the adjustment happens once whatever the ace count (A,A → 12, A,A,A → 23, where the soft-ace rule gives 13) |
| `BlackJack.Decide` | src/model/salaDeJuego/juego/juegosDeCartas/BlackJack.py:17-30 | each outcome is characterised by an if-and-only-if on the two scores: player bust iff player > 21; dealer bust iff player ≤ 21 < dealer; player wins iff both ≤ 21 and player > dealer; dealer wins iff both ≤ 21 and (player < dealer or both 21); no outcome iff an exact tie below 21 |
| `BlackJack.DecideExamples` | src/model/salaDeJuego/juego/juegosDeCartas/BlackJack.py:20-30 | sample decisions: (22,17), (18,22), (20,18), (17,19), (21,21) and the unresolved tie (20,20) |
| `BlackJack.Draw` | src/model/salaDeJuego/juego/juegosDeCartas/BlackJack.py:49-51 | a dealt card is always a key of the table |
| `BlackJack.InitialHand` | src/model/salaDeJuego/juego/juegosDeCartas/BlackJack.py:53-56 | an initial hand is exactly two table keys |
| `BlackJack.DealerTurn` | src/model/salaDeJuego/juego/juegosDeCartas/BlackJack.py:121-125 | the dealer loop ends. It only appends cards, draws each card while the score is below 17, and ends at a score ≥ 17 |
| `BlackJack.DealerKeepsStandingHand` | src/model/salaDeJuego/juego/juegosDeCartas/BlackJack.py:122-123 | a dealer hand that already scores ≥ 17 is left unchanged |
| `BlackJack.LowerAnswers` | src/model/salaDeJuego/juego/juegosDeCartas/BlackJack.py:115-118 | after lower-casing, an answer reads as "n" exactly for "n"/"N" and as "s" exactly for "s"/"S" |
| `BlackJack.PlayerTurn` | src/model/salaDeJuego/juego/juegosDeCartas/BlackJack.py:107-119 | the loop's result is a possible turn (`TurnPlays`): it stands at once on ≥ 21, reads an answer otherwise, "n" appends a drawn card, "s" stands, other answers change nothing, and it stops when the answers run out |
| `BlackJack.TurnExtends` | src/model/salaDeJuego/juego/juegosDeCartas/BlackJack.py:116-117 | a turn never alters or removes existing cards. It only appends table keys and reads at most the answers available |
| `BlackJack.TurnStandsAt21` | src/model/salaDeJuego/juego/juegosDeCartas/BlackJack.py:111-114 | a hand scoring ≥ 21 stands without drawing and without reading an answer |
| `BlackJack.TurnDrawsOnHits` | src/model/salaDeJuego/juego/juegosDeCartas/BlackJack.py:111-119 | the number of cards drawn equals the number of "n" answers read. Every card was drawn while the score was < 21, and no answer is read after an "s" |
| `BlackJack.TurnEnds` | src/model/salaDeJuego/juego/juegosDeCartas/BlackJack.py:107-119 | a turn ends standing at ≥ 21, or standing on an "s" answer, or not standing with every answer read and the score < 21 |
| `BlackJack.PlaySeats` | src/model/salaDeJuego/juego/juegosDeCartas/BlackJack.py:106-119 | the seats play in order, each on the answers left by the earlier seats. Either every seat stands with a hand that extends its dealt cards, or the reported seat is one whose turn, from its dealt cards, runs out of the answers left after every earlier seat played (`StoppedAt`) |
| `BlackJack.PlayRound` | src/model/salaDeJuego/juego/juegosDeCartas/BlackJack.py:99-131 | a finished round (`RoundPlays`) has four two-card starts played as turns, a dealer hand played to ≥ 17 from two cards, and each seat's outcome given by the winner rule on its score against the dealer's. A round that ends with `EndOfInput` names a seat where it can stop (`StoppedAt`): the earlier seats played and that seat's turn runs out of answers, as `input()` raising `EOFError` would |
| `Users.ValidNameLength` | src/model/usuario/Usuario.py:201 | a name is accepted if and only if it has 4 to 29 characters |
| `Users.ThreeDigits` | src/model/usuario/Usuario.py:173 | the number is written as three decimal digits that read back as the number |
| `Users.GenerateId` | src/model/usuario/Usuario.py:167-174 | a generated ID is the upper-cased initial of the name, then of the surname, then three digits that read back as the drawn number |
| `Users.Build` | src/model/usuario/Usuario.py:33-66 | construction succeeds if and only if name, surname, e-mail and password are accepted and balance and total staked are non-negative. The first failing setter in the source's order decides the error. The VIP flag is (balance ≥ 1000) whatever was passed. A non-empty ID is kept and an empty one is generated |
| `Users.DecreaseGuard` | src/model/usuario/Usuario.py:359-365 | the decrease guard at line 359 admits any positive amount (500 on 100 leaves −400) and any amount below the balance (−5 on 10 passes it). It rejects only when the amount is ≤ 0 and ≥ the balance |
| `Users.IntendedDecrease` | src/model/usuario/Usuario.py:347-365 | the decrease the docstring describes succeeds iff 0 < amount ≤ balance, and then leaves a balance in [0, old balance) with nothing else changed |
| `Users.IntendedDecreaseRejectsOverdraft` | src/model/usuario/Usuario.py:356-359 | the documented guard rejects 500 on a balance of 100 and −5, both of which the guard at line 359 accepts |
| `Users.IntendedDecreaseKeepsRoundTrip` | src/model/usuario/Usuario.py:356-365 | after any decrease the documented guard accepts, the balance stays ≥ 0 and the account still decodes from its dictionary |
| `Users.DecreaseAccepted` | src/model/usuario/Usuario.py:359 | definition of the written guard; characterised by `Users.DecreaseGuard` |
| `Users.ToDict` | src/model/usuario/Usuario.py:385-402 | definition: every field under its key; related to `Users.Decode` by `Users.RoundTrip` |
| `Users.Decode` | src/model/usuario/Usuario.py:122-133 | definition: each missing key takes the default of `data.get`, then the constructor runs; related to `Users.ToDict` by `Users.RoundTrip` |
| `Users.RoundTrip` | src/model/usuario/Usuario.py:385-402 | decoding the dictionary of an account with a non-negative balance gives back every field, with the VIP flag recomputed as (balance ≥ 1000) |
| `Users.NegativeBalanceBreaksRoundTrip` | src/model/usuario/Usuario.py:111-133 | decoding the dictionary of an account with a negative balance fails with the balance error |
| `Users.MissingNameRejected` | src/model/usuario/Usuario.py:122-133 | a dictionary without a name is rejected with the name error |
| `Users.User.SetName` | src/model/usuario/Usuario.py:191-206 | sets the name exactly when it is accepted; otherwise raises and changes nothing |
| `Users.User.SetSurname` | src/model/usuario/Usuario.py:208-223 | the same rule as the name, for the surname |
| `Users.User.SetEmail` | src/model/usuario/Usuario.py:268-281 | sets the e-mail exactly when it contains '@' and '.'; otherwise raises and changes nothing |
| `Users.User.SetPassword` | src/model/usuario/Usuario.py:282-295 | sets the password exactly when it has at least 3 characters; otherwise raises and changes nothing |
| `Users.User.SetId` | src/model/usuario/Usuario.py:176-189 | a non-empty ID is kept verbatim and an empty one is replaced by a generated ID. The ID is never empty afterwards |
| `Users.User.SetVip` | src/model/usuario/Usuario.py:225-232 | sets the flag; nothing else changes |
| `Users.User.SetBalance` | src/model/usuario/Usuario.py:234-251 | a non-negative balance is stored and sets vip to (balance ≥ 1000). A negative one raises with no change |
| `Users.User.SetTotalStaked` | src/model/usuario/Usuario.py:253-266 | a non-negative total is stored as given; a negative one raises with no change |
| `Users.User.SetHistory` | src/model/usuario/Usuario.py:297-304 | replaces the history; nothing else changes |
| `Users.User.Create` | src/model/usuario/Usuario.py:33-66 | running the setters in order yields a fresh valid account equal to `Build`'s result, or `Build`'s error |
| `Users.User.CreateUser` | src/model/usuario/Usuario.py:68-87 | succeeds exactly for accepted name, surname, e-mail and password. The account gets a generated ID, balance 1000, VIP, nothing staked and an empty history |
| `Users.User.CreateLocal` | src/model/usuario/Usuario.py:89-107 | succeeds exactly for accepted name and surname. The account has balance 1000 and is VIP although `vip=False` is passed |
| `Users.User.FromDict` | src/model/usuario/Usuario.py:110-133 | the account built from a dictionary is the one `Decode` describes, with missing keys taking their defaults |
| `Users.User.AddHistory` | src/model/usuario/Usuario.py:306-316 | appends the record to the history; nothing else changes |
| `Users.User.IncreaseBalance` | src/model/usuario/Usuario.py:318-335 | adds a positive amount to the balance without recomputing vip. An amount ≤ 0 raises with no change |
| `Users.User.DecreaseBalance` | src/model/usuario/Usuario.py:347-365 | subtracts the amount whenever the guard as written admits it, so the balance can go negative. Otherwise it raises with no change |
| `Users.User.IncreaseTotalStaked` | src/model/usuario/Usuario.py:367-383 | adds a positive amount to the total staked. An amount ≤ 0 raises with no change |

Every mutating method of `User` also ensures `old(Valid()) ==> Valid()`. Here `Valid()` means: accepted name, surname, e-mail and password, a non-empty ID, and a non-negative total staked.

## Findings

| source | as written | input that shows it | evidently intended | confidence | as-written member | corrected member |
|---|---|---|---|---|---|---|
| src/model/usuario/Usuario.py:359 | `disminuir_saldo` subtracts whenever `monto > 0 or monto < saldo` | saldo 100, monto 500: the guard at line 359 and the persistence call's `monto > 0` check (UsuarioServicio.py:111) both pass, nothing raises, and the saldo ends at −400. (For saldo 10, monto −5 the saldo becomes 15 first; only then does the persistence call raise `ValueError` at UsuarioServicio.py:115, leaving the object changed.) | raise `ValueError` when the amount is negative, zero or above the balance, as the docstring at Usuario.py:356-357 says, i.e. accept only 0 < monto ≤ saldo | not executed | `Users.DecreaseGuard` | `Users.IntendedDecrease` |

`Users.User.DecreaseBalance` keeps the guard as written, because that is what the code does. The documented rule is modelled alongside it as `Users.IntendedDecrease`. An account whose balance went negative through the written guard can no longer be rebuilt from its dictionary (`Users.NegativeBalanceBreaksRoundTrip`). Under the documented guard this cannot happen (`Users.IntendedDecreaseKeepsRoundTrip`).

## Left out

- The probability distribution of `random.choice` and of the random ID number. Draws are nondeterministic choices from the allowed set.
- Console output: every `print`, `mostrar_CartasYPuntos`, and the messages of `ganador`. `ganador` is modelled as `Decide`, which returns the outcome it announces.
- Player names and `get_jugadores`. They are used only in prints. The model assumes the four seats the source hard-codes; with fewer than four players the source would fail on `jugadores[3]`, and that failure is not modelled.
- The `plantados` list. Its entry for a seat is the `stood` result of `PlayerTurn`.
- `crear_sala_activa_con_jugador`. It creates an event loop and calls a room service that is not part of this model.
- The stubs `separar`, `retirarse` and `apostar`. They only print.
- The constructor of `BlackJack` and its class-level `_plantarse`/`_apuesta` fields. Nothing in the modelled code reads them.
- `JuegoDeCartas`, `SalaDeJuegoServicio`, `UsuarioServicio` and `generador_random` are not part of this model.
- Every `await servicio.…` persistence call in `Usuario.py`. Only the in-memory change that precedes each call is modelled.
- `Users.User.DecreaseBalance`: `raised` reflects only the guard at Usuario.py:359. For an amount ≤ 0 below the balance, the persistence call then raises `ValueError` (UsuarioServicio.py:111-115) after the balance has already changed; the model reports success for that case.
- `get_ciudad`. It reads `_ciudad`, which is never set, so the source raises.
- The getters. They are plain field reads.
- The `print(data)` in `from_dict`.
- Float arithmetic. Balances and totals are exact reals, with no rounding.
- `None` arguments, and dictionary values of the wrong type. A dictionary is a record with one optional entry per key.
- Aliasing. The shared default list `historial=[]`, and the history list that `to_dict` shares with the account, are not modelled: the history is a value.
- `BlackJack.Lower`: lower-cases ASCII only, not full Unicode `str.lower`. For the two answers that matter, "n" and "s", the results agree.
- `Users.UpperChar`: upper-cases ASCII and the Latin-1 letters 'à'..'þ' (so 'á' gives 'Á' and 'ñ' gives 'Ñ', as `str.upper` does), not full Unicode `str.upper`. Initials whose upper case lies outside Latin-1 or has two letters ('ÿ' → 'Ÿ', 'µ' → 'Μ', 'ß' → 'SS', and letters of other scripts) keep their lower case in the model.
