# Tabelline Hero — progression and reward model

A Dafny model of the rules engine of a multiplication-table practice game for
children. A learner plays ten-question sessions on one table (1 to 10, or the
"mixed" challenge). Each session earns XP, coins, stars and unlocks. Coins buy
cosmetic items in a shop.

The model covers five parts of the game:

- **Types** (`types.dfy`): table ids, themes, the learner profile and its
  per-table progress record, questions and shop items, as immutable datatypes.
  The progress record is a `map<TableId, TableProgress>`.
- **GameLogic** (`game_logic.dfy`): the tables open at start, the XP formula,
  the shop catalog and the question generator. Each `Math.random()` draw is an
  explicit parameter of type `Rand`, an exact real number in [0, 1).
  - The rejection-sampling loop that picks wrong answers runs on a finite
    stream of draws. It yields `None` if the stream runs out.
  - The random-comparator sort that shuffles the options is modelled as an
    arbitrary permutation, chosen by a list of picks.
- **Session** (`session.dfy`): the in-session state machine.
  - It tracks the question index, score, streak and the answer already given.
  - It requests mentor messages on streaks and mistakes.
  - It computes the final 0–3 star rating.
  - `PlaySession` plays a whole session. It proves that the reported score is
    the number of right answers.
- **Shop** (`shop.dfy`): the per-item decisions behind each shop button: owned,
  level-ok, affordable, equipped, what a click does, and when the button is
  disabled.
- **App** (`app.dfy`): the profile state machine.
  - Parts: the default profile, onboarding, theme selection, starting a table,
    completing a session, buying and equipping.
  - `GoodState` is an app-level invariant. Every handler keeps it when it is
    reached through the user interface.

Handlers that can throw in the original return a `Result`. Completing a session
reads the active table's entry (App.tsx:107). It writes the `'mixed'` entry
only when the star total reaches 15 (App.tsx:133-134). A `TypeError` is thrown
when the active entry is missing, or when the total reaches 15 and there is no
`'mixed'` entry. The model returns `Failure(MissingProgress(id))` in those
cases. The original's in-place writes are not modelled, and neither is their
effect when it throws (see "## Left out").

Two consequences of the code are worth spelling out:

- XP per session is `calculateXP(score, 0)` (App.tsx:104). The comment there
  says time is ignored. Yet the time bonus is `floor(max(0, 100 - time) / 2)`
  (utils/gameLogic.ts:96-97), so a time of 0 earns the full 50-point bonus.
  Every session therefore earns `10 * score + 50` XP, and a session with no
  right answers still earns 50. `FirstSessionExample` works this through: a
  new learner who scores 9 out of 10 on table 1 ends with 140 XP and level 2.
- The 15-star total that unlocks `'mixed'` sums every progress entry
  (App.tsx:132). That includes the `'mixed'` entry's own stars
  (`TotalStarsCountsMixed`).

## Model

| member | source | states |
|---|---|---|
| Types.AllTableIdsComplete | types.ts:2 | a table id is exactly one of the ten numeric tables or 'mixed'; the eleven-id list names each once |
| GameLogic.CalculateXP | utils/gameLogic.ts:94-98 | XP is 10 per correct answer plus a time bonus; the bonus is never negative, at most 50 for a non-negative time, exactly 50 at time 0 and 0 from time 100 |
| GameLogic.TimeBonusAntitone | utils/gameLogic.ts:96-97 | a longer time never earns more XP |
| GameLogic.ShopItems | utils/gameLogic.ts:100-123 | the catalog has 17 items, every cost is at least 0, every free item needs level 0, and item ids are distinct |
| GameLogic.DrawInt | utils/gameLogic.ts:58-63 | `Math.floor(r * k) + lo` for a draw r in [0, 1) lies among the k integers from lo |
| GameLogic.Factors | utils/gameLogic.ts:54-69 | for 'mixed' both factors lie in [2, 10]; for table k one factor is k and the other lies in [1, 10], and the optional swap keeps the product k times the drawn factor |
| GameLogic.Candidate | utils/gameLogic.ts:78-80 | every candidate wrong answer differs from the correct answer by 1 to 5 |
| GameLogic.AddCandidate | utils/gameLogic.ts:80-83 | one loop pass keeps the option list valid (correct answer first, distinct, others positive and 1 to 5 away); it appends exactly one value, the candidate, exactly when the candidate is positive and not yet an option, and otherwise leaves the list alone |
| GameLogic.Collect | utils/gameLogic.ts:74-84 | when the loop finishes it holds exactly four valid options, extending what it started with |
| GameLogic.Shuffle | utils/gameLogic.ts:90 | the shuffle permutes the options: same length, same multiset, nothing added or dropped |
| GameLogic.ShuffledOptionsWellFormed | utils/gameLogic.ts:86-91 | reordering four valid options leaves four distinct positive values that include the correct answer, each other one 1 to 5 away |
| GameLogic.GenerateQuestion | utils/gameLogic.ts:53-92 | a generated question has correctAnswer = factorA * factorB, four distinct positive options including it, distractors 1 to 5 away, and factors that fit the table |
| GameLogic.AlwaysAcceptableDraw | utils/gameLogic.ts:77-84 | for a positive answer and fewer than four options, some pair of draws adds a new option, so the loop can always make progress |
| GameLogic.GenerateQuestionCanFinish | utils/gameLogic.ts:77-84 | whatever the factor draws, three distractor draws (offsets +1, +2, +3) finish the loop |
| GameLogic.FinishingDrawsCollect | utils/gameLogic.ts:77-84 | for a positive answer, those three draws yield the options [c, c+1, c+2, c+3] |
| Session.StarRating | components/GameSession.tsx:81-86 | stars are 3 when the exact fraction correct is at least 0.9, 2 from 0.6 up to 0.9, 1 for any positive fraction below 0.6, else 0; always in 0..3 |
| Session.StarRatingMonotone | components/GameSession.tsx:83-86 | a higher score never earns fewer stars |
| Session.Start | components/GameSession.tsx:19-31 | a new session is waiting for its first answer with index 0 and score 0 |
| Session.HandleAnswer | components/GameSession.tsx:40-64 | an answer is ignored exactly when one is already selected or no question is shown; a right answer adds 1 to score and streak, a wrong one resets the streak and keeps the score; praise is requested exactly on a right answer whose streak is a multiple of 3; an explanation is requested exactly on a wrong answer |
| Session.AfterDelay | components/GameSession.tsx:66-89 | before the tenth answer the session moves to the next question with the selection cleared; after it the session reports the captured score plus one for a right answer, with that score's star rating |
| Session.RoundKeepsSessionReady | components/GameSession.tsx:40-89 | from a waiting session, an answer is always accepted; praise fires exactly on a positive multiple of 3; the round either leads to the next waiting session or, after the tenth question, to a final score in [0, 10] equal to the updated score |
| Session.PointsShown | components/GameSession.tsx:101 | the points shown are ten times the score: a non-negative multiple of 10 for a non-negative score, and dividing by 10 gives the score back |
| Session.PointsPerAnswer | components/GameSession.tsx:101 | the points shown, score times 10, grow by 10 on a right answer and stay the same on a wrong one |
| Session.PlaySession | components/GameSession.tsx:16-89 | a whole ten-question session reports the number of right answers, in [0, 10], and its star rating |
| Shop.IsOwned | components/Shop.tsx:22 | an item counts as owned when its id has been bought or it is free |
| Shop.IsLevelOk | components/Shop.tsx:23 | an item is level-ok when the learner's level is at least the item's required level |
| Shop.CanAfford | components/Shop.tsx:24 | an item is affordable when the learner's coins cover its cost |
| Shop.IsEquipped | components/Shop.tsx:27-29 | a colour is equipped when it is the avatar's base colour, an accessory when it is the avatar's accessory; an expression never is |
| Shop.IsDisabled | components/Shop.tsx:38 | the button is disabled for an item that is not owned and is either above the learner's level or not affordable |
| Shop.Click | components/Shop.tsx:34-37 | a click equips exactly the owned items; a buy is dispatched only for an item that is not owned, is level-ok and is affordable, so the coins left are not negative |
| Shop.DisabledIffNoAction | components/Shop.tsx:34-38 | the button is disabled exactly when a click on it would do nothing |
| Shop.OfKind | components/Shop.tsx:18-19 | filtering keeps exactly the catalog items of the requested kind, each as many times as the catalog lists it, and nothing else |
| Shop.ListedFrom | components/Shop.tsx:18-19 | the shop lists exactly the catalog's colours and accessories, never an expression |
| Shop.ExpressionNeverEquipped | components/Shop.tsx:27-29 | an expression item is never marked as equipped |
| App.InitialProgress | App.tsx:18-30 | the record built from the open-at-start tables has an entry for every table id, all with zero stars and high score, unlocked exactly for the listed numeric tables |
| App.DefaultUser | App.tsx:10-30 | the default profile opens exactly tables 1, 2, 5 and 10, has no stars, 0 XP, level 1, 0 coins and no items |
| App.DefaultTotalStars | App.tsx:10-30 | the default profile holds no stars in total |
| App.DefaultUserWellFormed | App.tsx:10-30 | the default profile meets the profile invariant |
| App.DefaultUserIsFresh | App.tsx:10-30 | the default profile has no XP, coins or stars, table 2 open and 'mixed' locked |
| App.LevelFor | App.tsx:113 | the level is the one whose 100-XP band holds the XP: 100 * (level - 1) <= xp < 100 * level, and at least 1 for non-negative XP |
| App.TotalStarsCountsMixed | App.tsx:132 | the star total is the sum over the ten numeric tables plus the 'mixed' entry's stars |
| App.StarsOverUpdate | App.tsx:132 | replacing one entry changes the star sum over a list of distinct ids by exactly that entry's change |
| App.TotalStarsUpdate | App.tsx:132 | replacing one entry changes the total over all entries by exactly that entry's change |
| App.ParseTheme | App.tsx:49-51 | a stored theme key reads back as the theme with that key, or falls back to wizard |
| App.ParseThemeKey | App.tsx:49-51 | every theme survives being stored and read back |
| App.TrimStart | App.tsx:77 | the leading white space removed by `trim` is all white space, and what is left starts with a character that is not |
| App.TrimEnd | App.tsx:77 | the trailing white space removed by `trim` is all white space, and what is left ends with a character that is not |
| App.Trim | App.tsx:77 | `trim` yields the empty string exactly when every character is white space or a line terminator; otherwise the result starts and ends with a character that is neither |
| App.IsBlank | App.tsx:77 | a name is refused exactly when `trim` leaves nothing of it |
| App.ThemeColor | App.tsx:79-84 | every theme sets its own colour, so the orange default is never used; only the wizard theme gets purple |
| App.CompleteOnboarding | App.tsx:76-93 | a blank name is refused; otherwise the learner is the default profile with the chosen name, theme and that theme's colour |
| App.SelectTheme | App.tsx:64-74 | with a learner, only the theme changes; without one, nothing does |
| App.StartGame | components/Dashboard.tsx:18-24 | a table becomes active only when the learner has an unlocked entry for it; locked tables cannot be started |
| App.RecordResult | App.tsx:107-121 | the active entry's stars become max(old, new) and its high score max(old, score), its lock flag is kept, no other entry changes, and the keys are unchanged |
| App.RecordResultTotal | App.tsx:107-121 | after recording, the star total is the old total with the active entry raised to max(old, new) |
| App.OpenNext | App.tsx:123-129 | an entry's flag is set exactly when it is the successor of a numeric table below 10 with at least two stars; table 10 and 'mixed' open nothing; nothing else changes |
| App.OpenNextTotal | App.tsx:123-129 | opening the next table leaves the star total unchanged |
| App.OpenMixed | App.tsx:131-135 | 'mixed' is opened exactly when the total reaches 15; writing to a missing 'mixed' entry throws; otherwise nothing changes |
| App.UpdateProgress | App.tsx:107-135 | the update throws exactly when the active entry is missing, or when the new total reaches 15 without a 'mixed' entry; otherwise the keys are kept and the total is the old one with the active stars raised |
| App.UpdateProgressEntries | App.tsx:107-135 | per entry: only the active entry's stars and high score change, to max(old, new); a flag ends up set exactly when it was set, or the two-star successor rule opens it, or it is 'mixed' and the total of all entries, 'mixed' included, is at least 15 (so 14 leaves it as it was) |
| App.ApplySession | App.tsx:100-143 | on completion xp' = xp + 10*score + 50, coins' = coins + 2*score, level' = floor(xp'/100) + 1; name, theme, avatar and items are unchanged |
| App.HandleGameComplete | App.tsx:100-147 | with no learner or no active table nothing changes; otherwise the session is applied and the active table is cleared, or the handler throws as the update does |
| App.ApplySessionPreservesWellFormed | App.tsx:100-143 | for a well-formed learner, a score of at least 0 and 0 to 3 stars, completion never throws and the learner stays well-formed |
| App.LevelNeverDecreases | App.tsx:112-113 | whenever completion succeeds with a score of at least 0, XP grows and the level never decreases |
| App.LowerResultKeepsRecord | App.tsx:107-109 | whenever completion succeeds, a result no better than the record leaves the table's stars and high score unchanged |
| App.UpdateProgressIdempotent | App.tsx:107-135 | applying the same result to the updated record changes nothing more |
| App.SecondApplicationKeepsProgress | App.tsx:100-143 | if completing a session succeeds, completing it again also succeeds and changes progress no further |
| App.FirstSessionExample | App.tsx:100-143 | a fresh learner scoring 9 of 10 with 3 stars on table 1 ends with 140 XP, level 2, 18 coins and 3 stars on table 1; table 2 stays open and 'mixed' stays locked |
| App.HandleBuyItem | App.tsx:149-156 | with a learner, buying subtracts the cost from coins with no affordability check and appends the item id; nothing else changes |
| App.HandleEquipItem | App.tsx:158-165 | a colour sets the base colour and an accessory sets the accessory, and either is then marked as equipped; an expression changes nothing |
| App.ShopClick | components/Shop.tsx:34-37 | a shop click never changes the active table or removes the learner; when the click does nothing the state is unchanged; an equip changes only the avatar; a buy subtracts the cost and appends the item id |
| App.ShopClickSafe | components/Shop.tsx:34-38 | through the shop, coins stay at least 0; an owned item is only equipped, never bought again, so no id is recorded twice; a bought item is owned |
| App.OnboardingKeepsGoodState | App.tsx:76-93 | onboarding leads to a well-formed learner |
| App.NavigationKeepsGoodState | App.tsx:64-98 | theme changes and table starts keep the app invariant |
| App.GameCompleteKeepsGoodState | App.tsx:100-147 | in a good state, completing a session with score 0..10 and 0..3 stars never throws and leads to a good state |
| App.ShopKeepsGoodState | components/Shop.tsx:34-38 | shop clicks, and equipping in general, keep the app invariant |

## Left out

- Local storage and JSON parsing (App.tsx:44-62) are I/O. Only the theme fallback is modelled, as `ParseTheme`.
- App.ParseTheme: maps every unknown key to wizard. The original looks the key up on a plain object, so a key inherited from the object prototype (such as `constructor`) would not fall back.
- A progress record read back from storage can hold keys that are not table ids. The model's keys are typed, so they are always table ids.
- The mentor message provider (services/gemini.ts) calls a remote text generator. The model records which mentor request each answer fires. It does not model the text, the fallback string, the welcome message requested when a session starts (components/GameSession.tsx:30), or the order in which replies arrive.
- The 2.5-second delay, the feedback colours and the reset of the mentor text after a mistake are not modelled. React state and rendering, the screens, the dashboard cards, the install prompt, the avatar drawing and the service worker are not modelled either.
- Floating point is not modelled. Random draws are exact reals in [0, 1). The star rating uses integer thresholds, which agree with the double-precision comparisons for whole scores.
- Random distributions are not modelled. The draws are parameters, and no statement is made about uniformity.
- The sort with a random comparator is modelled as an arbitrary permutation. The engine's sort algorithm and how often it calls the comparator are not modelled.
- GameLogic.GenerateQuestion: the original loop draws for as long as it needs to. The model works on a finite stream of draws and returns `None` when the stream runs out. `AlwaysAcceptableDraw` and `GenerateQuestionCanFinish` show that the loop can always finish.
- GameLogic.CalculateXP: time is a whole number. The game only ever passes 0.
- The source updates the progress entries in place. The update at App.tsx:116 makes a shallow copy, so the writes at App.tsx:127 and App.tsx:134 change entry objects shared with the previous profile. Onboarding copies the default profile's progress object too. The model uses pure updates, so none of this sharing is reproduced. Because the write at App.tsx:127 happens before the throw at App.tsx:134, a completion that throws has already unlocked the next table in the shared entry object. The model's `Failure` leaves the state as it was.
- App.OnboardingKeepsGoodState: assumes no table is being played. The name step of onboarding is reached only when there is no learner yet (App.tsx:69-72), and without a learner no table can be started.
- `handleChangeTheme` (App.tsx:167-170) only switches screens, and is not modelled.
- Theme display data, CSS class strings and button labels (components/Shop.tsx:39-59) are not modelled.
