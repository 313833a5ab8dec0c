/**
  The app's profile state machine: the default profile, onboarding, theme
  selection, starting a table, the rewards applied when a session
  completes, and buying and equipping shop items.
 */
module App {
  import opened Wrappers
  import opened Types
  import opened GameLogic
  import Shop

  // ---------------------------------------------------------------------------
  // Helpers
  // ---------------------------------------------------------------------------

  function Max(a: int, b: int): (m: int)
    ensures m >= a && m >= b && (m == a || m == b)
  {
    if a >= b then a else b
  }

  /** One level per 100 XP, starting at level 1. Dafny's division by a
      positive constant rounds down, like `Math.floor(xp / 100)`. */
  function LevelFor(xp: int): (l: int)
    ensures 100 * (l - 1) <= xp < 100 * l
    ensures xp >= 0 ==> l >= 1
  {
    xp / 100 + 1
  }

  lemma LevelForMonotone(x1: int, x2: int)
    requires x1 <= x2
    ensures LevelFor(x1) <= LevelFor(x2)
  {
  }

  /** The sum of the stars of the entries of `m` named in `ids`. */
  function StarsOver(m: map<TableId, TableProgress>, ids: seq<TableId>): int
    decreases |ids|
  {
    if |ids| == 0 then 0
    else (if ids[0] in m then m[ids[0]].stars else 0) + StarsOver(m, ids[1..])
  }

  /** The sum of the stars of every entry of the progress record. The keys are
      table ids, so summing over all eleven ids sums every entry once,
      including 'mixed'. */
  function TotalStars(m: map<TableId, TableProgress>): int
  {
    StarsOver(m, AllTableIds)
  }

  /** Summing over two lists of ids adds their sums. */
  lemma {:induction false} StarsOverAppend(m: map<TableId, TableProgress>, a: seq<TableId>, b: seq<TableId>)
    ensures StarsOver(m, a + b) == StarsOver(m, a) + StarsOver(m, b)
    decreases |a|
  {
    if |a| > 0 {
      assert (a + b)[1..] == a[1..] + b;
      StarsOverAppend(m, a[1..], b);
    } else {
      assert a + b == b;
    }
  }

  /** The total counts the 'mixed' entry's stars along with those of the ten
      numeric tables. */
  lemma TotalStarsCountsMixed(m: map<TableId, TableProgress>)
    ensures TotalStars(m) == StarsOver(m, AllTableIds[..10]) + (if Mixed in m then m[Mixed].stars else 0)
  {
    assert AllTableIds == AllTableIds[..10] + [Mixed];
    StarsOverAppend(m, AllTableIds[..10], [Mixed]);
    assert StarsOver(m, [Mixed]) == (if Mixed in m then m[Mixed].stars else 0) + StarsOver(m, []);
  }

  /** Replacing one entry changes the sum by the difference of its stars. */
  lemma {:induction false} StarsOverUpdate(m: map<TableId, TableProgress>, ids: seq<TableId>, id: TableId, p: TableProgress)
    requires Distinct(ids)
    ensures StarsOver(m[id := p], ids) ==
      StarsOver(m, ids) + (if id in ids then p.stars - (if id in m then m[id].stars else 0) else 0)
    decreases |ids|
  {
    if |ids| > 0 {
      assert Distinct(ids[1..]);
      StarsOverUpdate(m, ids[1..], id, p);
      if ids[0] == id {
        assert id !in ids[1..];
      } else {
        assert id in ids <==> id in ids[1..];
      }
    }
  }

  /** The total of a record after one entry is replaced. */
  lemma TotalStarsUpdate(m: map<TableId, TableProgress>, id: TableId, p: TableProgress)
    ensures TotalStars(m[id := p]) == TotalStars(m) - (if id in m then m[id].stars else 0) + p.stars
  {
    AllTableIdsComplete(id);
    StarsOverUpdate(m, AllTableIds, id, p);
  }

  /** A record without stars totals zero. */
  lemma {:induction false} StarsOverZero(m: map<TableId, TableProgress>, ids: seq<TableId>)
    requires forall id :: id in m ==> m[id].stars == 0
    ensures StarsOver(m, ids) == 0
    decreases |ids|
  {
    if |ids| > 0 {
      StarsOverZero(m, ids[1..]);
    }
  }

  // ---------------------------------------------------------------------------
  // The default profile
  // ---------------------------------------------------------------------------

  const Unlocked: TableProgress := TableProgress(0, 0, true)
  const Locked: TableProgress := TableProgress(0, 0, false)

  /** The `reduce` over the initial tables: each gets a fresh, unlocked entry. */
  function UnlockAll(acc: map<TableId, TableProgress>, ids: seq<TableId>): map<TableId, TableProgress>
    decreases |ids|
  {
    if |ids| == 0 then acc else UnlockAll(acc[ids[0] := Unlocked], ids[1..])
  }

  lemma {:induction false} UnlockAllFacts(acc: map<TableId, TableProgress>, ids: seq<TableId>)
    ensures forall id :: id in UnlockAll(acc, ids) <==> id in acc || id in ids
    ensures forall id :: id in ids ==> UnlockAll(acc, ids)[id] == Unlocked
    ensures forall id :: id in acc && id !in ids ==> UnlockAll(acc, ids)[id] == acc[id]
    decreases |ids|
  {
    if |ids| > 0 {
      UnlockAllFacts(acc[ids[0] := Unlocked], ids[1..]);
      assert forall id :: id in ids <==> id == ids[0] || id in ids[1..];
    }
  }

  /** The loop over tables i..10 that adds a locked entry for each table
      without one. */
  function FillLocked(m: map<TableId, TableProgress>, i: int): map<TableId, TableProgress>
    requires 1 <= i <= 11
    decreases 11 - i
  {
    if i > 10 then m
    else FillLocked(if Num(i) in m then m else m[Num(i) := Locked], i + 1)
  }

  lemma {:induction false} FillLockedFacts(m: map<TableId, TableProgress>, i: int)
    requires 1 <= i <= 11
    ensures forall id :: id in FillLocked(m, i) <==> id in m || (id.Num? && id.n >= i)
    ensures forall id :: id in m ==> FillLocked(m, i)[id] == m[id]
    ensures forall id :: id !in m && id.Num? && id.n >= i ==> FillLocked(m, i)[id] == Locked
    decreases 11 - i
  {
    if i <= 10 {
      var m' := if Num(i) in m then m else m[Num(i) := Locked];
      FillLockedFacts(m', i + 1);
    }
  }

  /** The progress record built from the list of tables open at start: the
      `reduce` over that list, then the loop adding a locked entry for every
      numeric table still missing, then a locked 'mixed' entry. */
  function InitialProgress(initial: seq<TableId>): (m: map<TableId, TableProgress>)
    ensures forall id :: id in AllTableIds ==> id in m
    ensures forall id :: id in m ==> m[id].stars == 0 && m[id].highScore == 0
    ensures forall id :: id in m ==> (m[id].isUnlocked <==> id in initial && id != Mixed)
  {
    var open := UnlockAll(map[], initial);
    UnlockAllFacts(map[], initial);
    var filled := FillLocked(open, 1);
    FillLockedFacts(open, 1);
    var m := filled[Mixed := Locked];
    forall id | id in AllTableIds
      ensures id in m
    {
      if id != Mixed {
        assert id.Num? && id.n >= 1;
      }
    }
    m
  }

  /** The profile of a learner who has not played yet: tables 1, 2, 5 and 10
      open, every other table and 'mixed' locked, no stars, no XP, no coins. */
  function DefaultUser(): (u: UserProfile)
    ensures forall id :: id in AllTableIds ==> id in u.progress
    ensures forall id :: id in u.progress ==> u.progress[id].stars == 0 && u.progress[id].highScore == 0
    ensures forall id :: id in u.progress ==> (u.progress[id].isUnlocked <==> id in InitialTables)
    ensures u.xp == 0 && u.level == 1 && u.coins == 0 && u.unlockedItems == []
  {
    UserProfile("", Wizard, AvatarConfig("bg-purple-500", "", "aa"), 0, 1, 0, [], InitialProgress(InitialTables))
  }

  /** What the app keeps true of a profile: the level follows the XP, coins and
      XP are not negative, every table has an entry with 0-3 stars, and no
      item was bought twice. */
  predicate WellFormed(u: UserProfile)
  {
    && u.xp >= 0
    && u.level == LevelFor(u.xp)
    && u.coins >= 0
    && Distinct(u.unlockedItems)
    && (forall id :: id in AllTableIds ==> id in u.progress)
    && (forall id :: id in u.progress ==> 0 <= u.progress[id].stars <= 3 && u.progress[id].highScore >= 0)
  }

  lemma DefaultTotalStars()
    ensures TotalStars(DefaultUser().progress) == 0
  {
    StarsOverZero(DefaultUser().progress, AllTableIds);
  }

  lemma DefaultUserWellFormed()
    ensures WellFormed(DefaultUser())
  {
    assert Distinct(DefaultUser().unlockedItems);
  }

  // ---------------------------------------------------------------------------
  // Themes and onboarding
  // ---------------------------------------------------------------------------

  /** The key a theme is stored under. */
  function ThemeKey(t: ThemeId): string
  {
    match t
    case Wizard => "wizard"
    case Princess => "princess"
    case Robot => "robot"
    case Soccer => "soccer"
  }

  /** Reading a stored theme key: an unknown key falls back to the wizard theme. */
  function ParseTheme(key: string): (t: ThemeId)
    ensures ThemeKey(t) == key || t == Wizard
  {
    if key == "princess" then Princess
    else if key == "robot" then Robot
    else if key == "soccer" then Soccer
    else Wizard
  }

  /** Every theme survives being stored and read back. */
  lemma ParseThemeKey(t: ThemeId)
    ensures ParseTheme(ThemeKey(t)) == t
  {
  }

  /** The characters `String.prototype.trim` removes: white space and line terminators. */
  predicate IsWhiteSpace(c: char)
  {
    || c == '\t' || c == '\n' || c == '\U{000B}' || c == '\U{000C}' || c == '\r' || c == ' '
    || c == '\U{00A0}' || c == '\U{1680}' || ('\U{2000}' <= c <= '\U{200A}')
    || c == '\U{2028}' || c == '\U{2029}' || c == '\U{202F}' || c == '\U{205F}'
    || c == '\U{3000}' || c == '\U{FEFF}'
  }

  /** `s` without its leading white space. */
  function TrimStart(s: string): (t: string)
    ensures |t| <= |s| && t == s[|s| - |t|..]
    ensures forall i :: 0 <= i < |s| - |t| ==> IsWhiteSpace(s[i])
    ensures |t| > 0 ==> !IsWhiteSpace(t[0])
    decreases |s|
  {
    if |s| > 0 && IsWhiteSpace(s[0]) then TrimStart(s[1..]) else s
  }

  /** `s` without its trailing white space. */
  function TrimEnd(s: string): (t: string)
    ensures |t| <= |s| && t == s[..|t|]
    ensures forall i :: |t| <= i < |s| ==> IsWhiteSpace(s[i])
    ensures |t| > 0 ==> !IsWhiteSpace(t[|t| - 1])
    decreases |s|
  {
    if |s| > 0 && IsWhiteSpace(s[|s| - 1]) then TrimEnd(s[..|s| - 1]) else s
  }

  /** `String.prototype.trim`: the part of `s` between its leading and
      trailing white space. It is empty exactly when every character of `s`
      is white space; otherwise it starts and ends with a character that is not. */
  function Trim(s: string): (t: string)
    ensures |t| <= |s|
    ensures |t| == 0 <==> forall i :: 0 <= i < |s| ==> IsWhiteSpace(s[i])
    ensures |t| > 0 ==> !IsWhiteSpace(t[0]) && !IsWhiteSpace(t[|t| - 1])
  {
    var a := TrimStart(s);
    var b := TrimEnd(a);
    TrimParts(s, a, b);
    b
  }

  lemma TrimParts(s: string, a: string, b: string)
    requires a == TrimStart(s) && b == TrimEnd(a)
    ensures |b| == 0 <==> forall i :: 0 <= i < |s| ==> IsWhiteSpace(s[i])
    ensures |b| > 0 ==> !IsWhiteSpace(b[0])
  {
    if |b| == 0 {
      // Every character of `a` is trailing white space, yet a non-empty `a`
      // would start with a character that is not.
      assert |a| == 0;
    } else {
      assert b[0] == a[0];
    }
  }

  /** A name that `trim` empties; the original's `!name.trim()`. */
  predicate IsBlank(name: string)
  {
    Trim(name) == []
  }

  /** The avatar colour a new learner gets for each theme. */
  function ThemeColor(t: ThemeId): (c: string)
    ensures c != "bg-orange-400"
    ensures t == Wizard <==> c == "bg-purple-500"
  {
    match t
    case Wizard => "bg-purple-500"
    case Princess => "bg-pink-400"
    case Robot => "bg-cyan-500"
    case Soccer => "bg-green-500"
  }

  /** The app's top-level state: the learner, if any, and the table being played. */
  datatype AppState = AppState(user: Option<UserProfile>, activeTable: Option<TableId>)

  /** Finishing onboarding: a blank name is refused; otherwise the default
      profile is taken with the chosen name, theme and the theme's colour. */
  function CompleteOnboarding(s: AppState, name: string, theme: ThemeId): (r: AppState)
    ensures IsBlank(name) ==> r == s
    ensures !IsBlank(name) ==>
      && r.user.Some?
      && r.user.value == DefaultUser().(name := name, themeId := theme,
           avatar := DefaultUser().avatar.(baseColor := ThemeColor(theme)))
      && r.activeTable == s.activeTable
  {
    if IsBlank(name) then s
    else
      var d := DefaultUser();
      s.(user := Some(d.(name := name, themeId := theme, avatar := d.avatar.(baseColor := ThemeColor(theme)))))
  }

  /** Choosing a theme once a learner exists only changes the theme. */
  function SelectTheme(s: AppState, t: ThemeId): (r: AppState)
    ensures s.user.None? ==> r == s
    ensures s.user.Some? ==> r.user == Some(s.user.value.(themeId := t)) && r.activeTable == s.activeTable
  {
    match s.user
    case None => s
    case Some(u) => s.(user := Some(u.(themeId := t)))
  }

  /** Starting a table from the dashboard: a locked table (or one without an
      entry) cannot be started. */
  function StartGame(s: AppState, id: TableId): (r: AppState)
    ensures r.user == s.user
    ensures r.activeTable == Some(id) || r == s
    ensures r.activeTable == Some(id) <==>
      s.activeTable == Some(id) ||
      (s.user.Some? && id in s.user.value.progress && s.user.value.progress[id].isUnlocked)
  {
    match s.user
    case Some(u) =>
      if id in u.progress && u.progress[id].isUnlocked then s.(activeTable := Some(id)) else s
    case None => s
  }

  // ---------------------------------------------------------------------------
  // Session completion
  // ---------------------------------------------------------------------------

  /** Why completing a session threw: an entry the update reads is missing. */
  datatype Fault = MissingProgress(id: TableId)

  /** Whether the update opens table `x` as the successor of `id`: numeric
      tables below 10 open the next one once they hold at least two stars. */
  predicate OpensNext(id: TableId, newStars: int, x: TableId)
  {
    newStars >= 2 && id.Num? && id.n < 10 && x == Num(id.n + 1)
  }

  /** The total the mixed-unlock rule reads: the old total with the active
      entry's stars raised to `Max(old, stars)`. */
  function TotalAfter(progress: map<TableId, TableProgress>, id: TableId, stars: int): int
    requires id in progress
  {
    TotalStars(progress) - progress[id].stars + Max(progress[id].stars, stars)
  }

  /** Records the session on the active entry: best stars, best score. */
  function RecordResult(progress: map<TableId, TableProgress>, id: TableId, score: int, stars: int)
    : (p: map<TableId, TableProgress>)
    requires id in progress
    ensures p.Keys == progress.Keys
    ensures forall x :: x in progress && x != id ==> p[x] == progress[x]
    ensures p[id].isUnlocked == progress[id].isUnlocked
    ensures p[id].stars == Max(progress[id].stars, stars)
    ensures p[id].highScore == Max(progress[id].highScore, score)
  {
    var prev := progress[id];
    progress[id := prev.(stars := Max(prev.stars, stars), highScore := Max(prev.highScore, score))]
  }

  lemma RecordResultTotal(progress: map<TableId, TableProgress>, id: TableId, score: int, stars: int)
    requires id in progress
    ensures TotalStars(RecordResult(progress, id, score, stars)) == TotalAfter(progress, id, stars)
  {
    var p := RecordResult(progress, id, score, stars);
    TotalStarsUpdate(progress, id, p[id]);
  }

  /** Opens the successor of `id` when the rule allows it and the successor
      has an entry. */
  function OpenNext(p: map<TableId, TableProgress>, id: TableId, newStars: int): (q: map<TableId, TableProgress>)
    ensures q.Keys == p.Keys
    ensures forall x :: x in p ==>
      q[x] == p[x].(isUnlocked := p[x].isUnlocked || OpensNext(id, newStars, x))
  {
    if newStars >= 2 && id.Num? && id.n < 10 then
      var next := Num(id.n + 1);
      if next in p then
        assert forall x :: OpensNext(id, newStars, x) <==> x == next;
        p[next := p[next].(isUnlocked := true)]
      else
        assert forall x :: x in p ==> !OpensNext(id, newStars, x);
        p
    else
      assert forall x :: !OpensNext(id, newStars, x);
      p
  }

  lemma OpenNextTotal(p: map<TableId, TableProgress>, id: TableId, newStars: int)
    ensures TotalStars(OpenNext(p, id, newStars)) == TotalStars(p)
  {
    var q := OpenNext(p, id, newStars);
    if q != p {
      var next := Num(id.n + 1);
      assert q == p[next := q[next]];
      TotalStarsUpdate(p, next, q[next]);
    }
  }

  /** Opens 'mixed' once the total reaches 15; writing to a missing 'mixed'
      entry throws. */
  function OpenMixed(p: map<TableId, TableProgress>): (r: Result<map<TableId, TableProgress>, Fault>)
    ensures r.Success? <==> Mixed in p || TotalStars(p) < 15
    ensures r.Success? ==> r.value.Keys == p.Keys && TotalStars(r.value) == TotalStars(p)
    ensures r.Success? ==> forall x :: x in p ==>
      r.value[x] == p[x].(isUnlocked := p[x].isUnlocked || (x == Mixed && TotalStars(p) >= 15))
  {
    var total := TotalStars(p);
    if total >= 15 && Mixed !in p then Failure(MissingProgress(Mixed))
    else if total >= 15 then
      var q := p[Mixed := p[Mixed].(isUnlocked := true)];
      TotalStarsUpdate(p, Mixed, q[Mixed]);
      Success(q)
    else Success(p)
  }

  /** The progress part of completing a session on table `id`. Reading a
      missing active entry, or opening a missing 'mixed' entry, throws. */
  function UpdateProgress(progress: map<TableId, TableProgress>, id: TableId, score: int, stars: int)
    : (r: Result<map<TableId, TableProgress>, Fault>)
    ensures r.Success? <==> id in progress && (Mixed in progress || TotalAfter(progress, id, stars) < 15)
    ensures r.Success? ==> r.value.Keys == progress.Keys
    ensures r.Success? ==> TotalStars(r.value) == TotalAfter(progress, id, stars)
  {
    if id !in progress then Failure(MissingProgress(id))
    else
      var p1 := RecordResult(progress, id, score, stars);
      RecordResultTotal(progress, id, score, stars);
      var p2 := OpenNext(p1, id, p1[id].stars);
      OpenNextTotal(p1, id, p1[id].stars);
      OpenMixed(p2)
  }

  /** Entry by entry: the active table keeps its best stars and best score and
      no other entry's stars or score change; an entry becomes unlocked exactly
      when it was unlocked, or it is the successor a two-star result opens, or
      it is 'mixed' and the stars of all entries now reach 15. Flags only ever
      go from locked to unlocked. */
  lemma UpdateProgressEntries(progress: map<TableId, TableProgress>, id: TableId, score: int, stars: int,
                               r: map<TableId, TableProgress>, x: TableId)
    requires UpdateProgress(progress, id, score, stars) == Success(r)
    requires x in progress
    ensures r[x].stars == (if x == id then Max(progress[x].stars, stars) else progress[x].stars)
    ensures r[x].highScore == (if x == id then Max(progress[x].highScore, score) else progress[x].highScore)
    ensures r[x].isUnlocked <==>
      || progress[x].isUnlocked
      || OpensNext(id, Max(progress[id].stars, stars), x)
      || (x == Mixed && TotalStars(r) >= 15)
  {
    var p1 := RecordResult(progress, id, score, stars);
    var p2 := OpenNext(p1, id, p1[id].stars);
    OpenNextTotal(p1, id, p1[id].stars);
    assert p1[id].stars == Max(progress[id].stars, stars);
    if x == id {
      assert !OpensNext(id, p1[id].stars, x);
    }
  }

  /** Completing a session on table `id` with `score` right answers and
      `stars` stars: XP grows by `calculateXP(score, 0)`, that is
      10 * score + 50, the level is recomputed from the XP, coins grow by two
      per right answer, and the progress record is updated. Nothing else in
      the profile changes. */
  function ApplySession(u: UserProfile, id: TableId, score: int, stars: int): (r: Result<UserProfile, Fault>)
    ensures r.Success? <==> UpdateProgress(u.progress, id, score, stars).Success?
    ensures r.Success? ==>
      && r.value.xp == u.xp + 10 * score + 50
      && r.value.coins == u.coins + 2 * score
      && r.value.level == LevelFor(r.value.xp)
      && r.value.progress == UpdateProgress(u.progress, id, score, stars).value
      && r.value.name == u.name
      && r.value.themeId == u.themeId
      && r.value.avatar == u.avatar
      && r.value.unlockedItems == u.unlockedItems
  {
    var xpGained := CalculateXP(score, 0);
    var coinsGained := score * 2;
    var newTotalXp := u.xp + xpGained;
    match UpdateProgress(u.progress, id, score, stars)
    case Failure(e) => Failure(e)
    case Success(progress) =>
      Success(u.(coins := u.coins + coinsGained, xp := newTotalXp, level := LevelFor(newTotalXp), progress := progress))
  }

  /** `handleGameComplete`: without a learner or an active table nothing
      happens; otherwise the session's result is applied and the active table
      is cleared. */
  function HandleGameComplete(s: AppState, score: int, stars: int): (r: Result<AppState, Fault>)
    ensures s.user.None? || s.activeTable.None? ==> r == Success(s)
    ensures s.user.Some? && s.activeTable.Some? ==>
      (r.Success? <==> ApplySession(s.user.value, s.activeTable.value, score, stars).Success?)
    ensures s.user.Some? && s.activeTable.Some? && r.Success? ==>
      r.value.activeTable.None? && r.value.user == Some(ApplySession(s.user.value, s.activeTable.value, score, stars).value)
  {
    match (s.user, s.activeTable)
    case (Some(u), Some(id)) =>
      (match ApplySession(u, id, score, stars)
       case Failure(e) => Failure(e)
       case Success(u') => Success(AppState(Some(u'), None)))
    case _ => Success(s)
  }

  /** A well-formed learner never makes completion throw, and completion with
      a score of at least 0 and 0 to 3 stars keeps the learner well-formed. */
  lemma ApplySessionPreservesWellFormed(u: UserProfile, id: TableId, score: int, stars: int)
    requires WellFormed(u)
    requires score >= 0 && 0 <= stars <= 3
    ensures ApplySession(u, id, score, stars).Success?
    ensures WellFormed(ApplySession(u, id, score, stars).value)
  {
    AllTableIdsComplete(id);
    AllTableIdsComplete(Mixed);
    assert id in u.progress && Mixed in u.progress;
    var r := UpdateProgress(u.progress, id, score, stars).value;
    forall x | x in r
      ensures 0 <= r[x].stars <= 3 && r[x].highScore >= 0
    {
      UpdateProgressEntries(u.progress, id, score, stars, r, x);
    }
  }

  /** XP, and with it the level, never go down when the score is not negative. */
  lemma LevelNeverDecreases(u: UserProfile, id: TableId, score: int, stars: int)
    requires u.level == LevelFor(u.xp)
    requires score >= 0
    ensures ApplySession(u, id, score, stars).Success? ==>
              ApplySession(u, id, score, stars).value.xp > u.xp &&
              ApplySession(u, id, score, stars).value.level >= u.level
  {
    if ApplySession(u, id, score, stars).Success? {
      LevelForMonotone(u.xp, ApplySession(u, id, score, stars).value.xp);
    }
  }

  /** A result no better than the recorded one leaves the table's stars and
      high score as they were. */
  lemma LowerResultKeepsRecord(u: UserProfile, id: TableId, score: int, stars: int)
    requires id in u.progress
    requires stars <= u.progress[id].stars && score <= u.progress[id].highScore
    ensures ApplySession(u, id, score, stars).Success? ==>
              ApplySession(u, id, score, stars).value.progress[id].stars == u.progress[id].stars &&
              ApplySession(u, id, score, stars).value.progress[id].highScore == u.progress[id].highScore
  {
  }

  /** Applying the same result twice to a progress record changes it once:
      the second application finds nothing left to raise or to open. */
  lemma UpdateProgressIdempotent(p: map<TableId, TableProgress>, id: TableId, score: int, stars: int)
    requires UpdateProgress(p, id, score, stars).Success?
    ensures UpdateProgress(UpdateProgress(p, id, score, stars).value, id, score, stars).Success?
    ensures UpdateProgress(UpdateProgress(p, id, score, stars).value, id, score, stars).value ==
            UpdateProgress(p, id, score, stars).value
  {
    var p1 := UpdateProgress(p, id, score, stars).value;
    UpdateProgressEntries(p, id, score, stars, p1, id);
    assert TotalAfter(p1, id, stars) == TotalStars(p1);
    var p2 := UpdateProgress(p1, id, score, stars).value;
    forall x | x in p1
      ensures p2[x] == p1[x]
    {
      SecondUpdateEntry(p, p1, p2, id, score, stars, x);
    }
    SameEntriesSameMap(p2, p1);
  }

  lemma SecondUpdateEntry(p: map<TableId, TableProgress>, p1: map<TableId, TableProgress>, p2: map<TableId, TableProgress>,
                          id: TableId, score: int, stars: int, x: TableId)
    ensures (UpdateProgress(p, id, score, stars) == Success(p1) &&
             UpdateProgress(p1, id, score, stars) == Success(p2) && x in p1) ==> p2[x] == p1[x]
  {
    if UpdateProgress(p, id, score, stars) == Success(p1) &&
       UpdateProgress(p1, id, score, stars) == Success(p2) && x in p1 {
      UpdateProgressEntries(p, id, score, stars, p1, id);
      UpdateProgressEntries(p, id, score, stars, p1, x);
      UpdateProgressEntries(p1, id, score, stars, p2, x);
    }
  }

  lemma SameEntriesSameMap(a: map<TableId, TableProgress>, b: map<TableId, TableProgress>)
    requires a.Keys == b.Keys
    requires forall x :: x in b ==> a[x] == b[x]
    ensures a == b
  {
  }

  /** Completing the same session twice only updates progress the first time. */
  lemma SecondApplicationKeepsProgress(u: UserProfile, id: TableId, score: int, stars: int)
    ensures ApplySession(u, id, score, stars).Success? ==>
              ApplySession(ApplySession(u, id, score, stars).value, id, score, stars).Success? &&
              ApplySession(ApplySession(u, id, score, stars).value, id, score, stars).value.progress ==
              ApplySession(u, id, score, stars).value.progress
  {
    if ApplySession(u, id, score, stars).Success? {
      UpdateProgressIdempotent(u.progress, id, score, stars);
    }
  }

  /** A learner with no XP, coins or stars, table 2 open and 'mixed' locked. */
  predicate FreshLearner(d: UserProfile)
  {
    && d.xp == 0 && d.level == 1 && d.coins == 0
    && Num(1) in d.progress && Num(2) in d.progress && Mixed in d.progress
    && d.progress[Num(1)].stars == 0 && d.progress[Num(1)].highScore == 0
    && d.progress[Num(2)].isUnlocked
    && !d.progress[Mixed].isUnlocked
    && TotalStars(d.progress) == 0
  }

  /** Such a learner scoring 9 out of 10 on table 1 gets 140 XP (90 plus the
      50-point time bonus), so reaches level 2 with 18 coins and three stars
      on table 1; 'mixed' stays locked. */
  lemma FirstSessionExample(d: UserProfile)
    requires FreshLearner(d)
    ensures ApplySession(d, Num(1), 9, 3).Success?
    ensures
      var u := ApplySession(d, Num(1), 9, 3).value;
      && u.xp == 140 && u.level == 2 && u.coins == 18
      && u.progress[Num(1)].stars == 3 && u.progress[Num(1)].highScore == 9
      && u.progress[Num(2)].isUnlocked
      && !u.progress[Mixed].isUnlocked
  {
    assert TotalAfter(d.progress, Num(1), 3) == 3;
    var r := UpdateProgress(d.progress, Num(1), 9, 3).value;
    UpdateProgressEntries(d.progress, Num(1), 9, 3, r, Num(1));
    UpdateProgressEntries(d.progress, Num(1), 9, 3, r, Num(2));
    UpdateProgressEntries(d.progress, Num(1), 9, 3, r, Mixed);
    assert !OpensNext(Num(1), 3, Mixed);
  }

  /** The default profile is such a learner. */
  lemma DefaultUserIsFresh(d: UserProfile)
    requires d == DefaultUser()
    ensures FreshLearner(d)
  {
    AllTableIdsComplete(Mixed);
    AllTableIdsComplete(Num(1));
    AllTableIdsComplete(Num(2));
    DefaultTotalStars();
    assert Num(2) in InitialTables && Mixed !in InitialTables;
  }

  // ---------------------------------------------------------------------------
  // Buying and equipping
  // ---------------------------------------------------------------------------

  /** `handleBuyItem`: pays the cost and records the item, with no check of
      its own; the shop's gate is the only guard. */
  function HandleBuyItem(s: AppState, item: ShopItem): (r: AppState)
    ensures s.user.None? ==> r == s
    ensures s.user.Some? ==>
      var u := s.user.value;
      && r.user.Some?
      && r.user.value.coins == u.coins - item.cost
      && |r.user.value.unlockedItems| == |u.unlockedItems| + 1
      && r.user.value.unlockedItems[..|u.unlockedItems|] == u.unlockedItems
      && r.user.value.unlockedItems[|u.unlockedItems|..] == [item.id]
      && r.user.value == u.(coins := r.user.value.coins, unlockedItems := r.user.value.unlockedItems)
      && r.activeTable == s.activeTable
  {
    match s.user
    case None => s
    case Some(u) => s.(user := Some(u.(coins := u.coins - item.cost, unlockedItems := u.unlockedItems + [item.id])))
  }

  /** `handleEquipItem`: a colour replaces the base colour, an accessory the
      accessory; an expression changes nothing. */
  function HandleEquipItem(s: AppState, item: ShopItem): (r: AppState)
    ensures s.user.None? || item.kind == Expression ==> r == s
    ensures s.user.Some? ==>
      && r.user.Some?
      && r.user.value == s.user.value.(avatar := r.user.value.avatar)
      && r.activeTable == s.activeTable
    ensures s.user.Some? && item.kind != Expression ==> Shop.IsEquipped(r.user.value, item)
    ensures s.user.Some? && item.kind == Color ==>
      r.user.value.avatar == s.user.value.avatar.(baseColor := item.value)
    ensures s.user.Some? && item.kind == Accessory ==>
      r.user.value.avatar == s.user.value.avatar.(accessory := item.value)
  {
    match s.user
    case None => s
    case Some(u) =>
      var avatar :=
        if item.kind == Color then u.avatar.(baseColor := item.value)
        else if item.kind == Accessory then u.avatar.(accessory := item.value)
        else u.avatar;
      s.(user := Some(u.(avatar := avatar)))
  }

  /** A click on a shop button, dispatched as the shop decides. */
  function ShopClick(s: AppState, item: ShopItem): (r: AppState)
    ensures r.activeTable == s.activeTable
    ensures r.user.Some? <==> s.user.Some?
    ensures s.user.Some? && Shop.Click(s.user.value, item) == Shop.NoAction ==> r == s
    ensures s.user.Some? && Shop.Click(s.user.value, item) == Shop.EquipIt ==>
              r.user.value == s.user.value.(avatar := r.user.value.avatar)
    ensures s.user.Some? && Shop.Click(s.user.value, item) == Shop.BuyIt ==>
              r.user.value.coins == s.user.value.coins - item.cost &&
              r.user.value.unlockedItems == s.user.value.unlockedItems + [item.id]
  {
    match s.user
    case None => s
    case Some(u) =>
      match Shop.Click(u, item)
      case EquipIt => HandleEquipItem(s, item)
      case BuyIt => HandleBuyItem(s, item)
      case NoAction => s
  }

  /** Through the shop, coins never go negative: a purchase only happens when
      the learner can afford it. An owned item is only ever equipped, never
      bought again, so nothing is recorded twice, and a bought item is owned. */
  lemma ShopClickSafe(s: AppState, item: ShopItem)
    requires s.user.Some? && s.user.value.coins >= 0 && Distinct(s.user.value.unlockedItems)
    ensures ShopClick(s, item).user.Some?
    ensures ShopClick(s, item).user.value.coins >= 0
    ensures Distinct(ShopClick(s, item).user.value.unlockedItems)
    ensures Shop.IsOwned(s.user.value, item) ==>
      ShopClick(s, item).user.value.coins == s.user.value.coins &&
      ShopClick(s, item).user.value.unlockedItems == s.user.value.unlockedItems
    ensures Shop.Click(s.user.value, item) == Shop.BuyIt ==> Shop.IsOwned(ShopClick(s, item).user.value, item)
  {
    var u := s.user.value;
    if Shop.Click(u, item) == Shop.BuyIt {
      var l := ShopClick(s, item).user.value.unlockedItems;
      assert l == u.unlockedItems + [item.id];
      assert item.id !in u.unlockedItems;
      assert l[|l| - 1] == item.id;
    }
  }

  // ---------------------------------------------------------------------------
  // The app invariant
  // ---------------------------------------------------------------------------

  /** What holds of every state the app reaches: the learner is well-formed
      and the active table, if any, is an unlocked one. */
  predicate GoodState(s: AppState)
  {
    && (s.user.Some? ==> WellFormed(s.user.value))
    && (s.activeTable.Some? ==>
          s.user.Some? && s.activeTable.value in s.user.value.progress &&
          s.user.value.progress[s.activeTable.value].isUnlocked)
  }

  /** The app starts with no learner and no table. */
  lemma InitialStateGood()
    ensures GoodState(AppState(None, None))
  {
  }

  /** Onboarding, reached while no table is being played, yields a good state. */
  lemma OnboardingKeepsGoodState(s: AppState, name: string, theme: ThemeId)
    requires GoodState(s) && s.activeTable.None?
    ensures GoodState(CompleteOnboarding(s, name, theme))
  {
    DefaultUserWellFormed();
  }

  /** Theme changes and table starts keep the invariant. */
  lemma NavigationKeepsGoodState(s: AppState, theme: ThemeId, id: TableId)
    requires GoodState(s)
    ensures GoodState(SelectTheme(s, theme))
    ensures GoodState(StartGame(s, id))
  {
  }

  /** Completing a session with a result in range never throws in a good
      state, and leads to a good state. */
  lemma GameCompleteKeepsGoodState(s: AppState, score: int, stars: int)
    requires GoodState(s)
    requires 0 <= score <= 10 && 0 <= stars <= 3
    ensures HandleGameComplete(s, score, stars).Success?
    ensures GoodState(HandleGameComplete(s, score, stars).value)
  {
    if s.user.Some? && s.activeTable.Some? {
      ApplySessionPreservesWellFormed(s.user.value, s.activeTable.value, score, stars);
    }
  }

  /** Shop clicks, and equipping in general, keep the invariant. (A purchase
      that bypassed the shop's gate could break it.) */
  lemma ShopKeepsGoodState(s: AppState, item: ShopItem)
    requires GoodState(s)
    ensures GoodState(HandleEquipItem(s, item))
    ensures GoodState(ShopClick(s, item))
  {
    if s.user.Some? {
      ShopClickSafe(s, item);
    }
  }
}
