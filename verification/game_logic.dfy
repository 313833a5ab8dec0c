/**
  Pure game rules: the tables unlocked at start, the XP formula, the shop
  catalog and the question generator. Every `Math.random()` draw is an
  explicit parameter of type `Rand`, a real number in [0, 1).
 */
module GameLogic {
  import opened Wrappers
  import opened Types

  /** The tables a new learner may play straight away. */
  const InitialTables: seq<TableId> := [Num(1), Num(2), Num(5), Num(10)]

  // ---------------------------------------------------------------------------
  // Experience
  // ---------------------------------------------------------------------------

  /** Experience for a session: ten per correct answer, plus half of what is
      left of a 100-unit time budget (never negative). */
  function CalculateXP(correctCount: int, totalTime: int): (xp: int)
    ensures xp >= 10 * correctCount
    ensures totalTime >= 0 ==> xp <= 10 * correctCount + 50
    ensures totalTime == 0 ==> xp == 10 * correctCount + 50
    ensures totalTime >= 100 ==> xp == 10 * correctCount
  {
    var baseXP := correctCount * 10;
    var timeBonus := if 100 - totalTime > 0 then 100 - totalTime else 0;
    baseXP + timeBonus / 2
  }

  /** The time bonus never grows when the session takes longer. */
  lemma TimeBonusAntitone(correctCount: int, t1: int, t2: int)
    requires t1 <= t2
    ensures CalculateXP(correctCount, t2) <= CalculateXP(correctCount, t1)
  {
  }

  // ---------------------------------------------------------------------------
  // Shop catalog
  // ---------------------------------------------------------------------------

  /** The static shop catalog: seven colours, eight accessories, two expressions. */
  function ShopItems(): (items: seq<ShopItem>)
    ensures |items| == 17
    ensures forall i :: 0 <= i < |items| ==> items[i].cost >= 0
    ensures forall i :: 0 <= i < |items| && items[i].cost == 0 ==> items[i].reqLevel == 0
    ensures forall i, j :: 0 <= i < j < |items| ==> items[i].id != items[j].id
  {
    [ ShopItem("c_orange", Color, "Arancio", 0, "bg-orange-400", 0),
      ShopItem("c_blue", Color, "Blu", 50, "bg-blue-500", 2),
      ShopItem("c_purple", Color, "Viola", 100, "bg-purple-500", 3),
      ShopItem("c_green", Color, "Verde", 150, "bg-emerald-500", 4),
      ShopItem("c_pink", Color, "Rosa", 200, "bg-pink-400", 5),
      ShopItem("c_red", Color, "Rosso", 250, "bg-red-600", 6),
      ShopItem("c_cyan", Color, "Ciano", 120, "bg-cyan-500", 4),
      ShopItem("a_none", Accessory, "Nessuno", 0, "", 0),
      ShopItem("a_glasses", Accessory, "Occhiali", 60, "\U{1F453}", 2),
      ShopItem("a_crown", Accessory, "Corona", 120, "\U{1F451}", 5),
      ShopItem("a_hat", Accessory, "Cappello", 80, "\U{1F9E2}", 3),
      ShopItem("a_astro", Accessory, "Casco", 150, "\U{1F9D1}\U{200D}\U{1F680}", 6),
      ShopItem("a_mask", Accessory, "Maschera", 100, "\U{1F3AD}", 4),
      ShopItem("a_wand", Accessory, "Bacchetta", 200, "\U{1FA84}", 7),
      ShopItem("a_ball", Accessory, "Pallone", 90, "\U{26BD}", 3),
      ShopItem("e_smile", Expression, "Sorriso", 0, "aa", 0),
      ShopItem("e_cool", Expression, "Figo", 50, "bb", 2) ]
  }

  // ---------------------------------------------------------------------------
  // Question generation
  // ---------------------------------------------------------------------------

  /** One value of `Math.random()`. */
  type Rand = r: real | 0.0 <= r < 1.0

  /** `Math.floor(r * k) + lo`: a draw from the k consecutive integers starting at lo. */
  function DrawInt(r: Rand, k: nat, lo: int): (v: int)
    requires k >= 1
    ensures lo <= v < lo + k
  {
    (r * k as real).Floor + lo
  }

  /** The two factors of a question. For 'mixed' both come from [2, 10]; for
      table k one factor is k and the other comes from [1, 10], and a second
      draw above one half swaps them for display. */
  function Factors(id: TableId, first: Rand, second: Rand): (f: (int, int))
    ensures id == Mixed ==> 2 <= f.0 <= 10 && 2 <= f.1 <= 10
    ensures id.Num? ==> (f.0 == id.n && 1 <= f.1 <= 10) || (f.1 == id.n && 1 <= f.0 <= 10)
    ensures id.Num? ==> f.0 * f.1 == id.n * DrawInt(first, 10, 1)
  {
    match id
    case Mixed => (DrawInt(first, 9, 2), DrawInt(second, 9, 2))
    case Num(k) =>
      var b := DrawInt(first, 10, 1);
      if second > 0.5 then (b, k) else (k, b)
  }

  /** The options collected so far by the distractor loop: the correct answer
      first, then distinct positive values 1 to 5 away from it. */
  predicate PartialOptions(correct: int, opts: seq<int>)
  {
    && 1 <= |opts| <= 4
    && opts[0] == correct
    && Distinct(opts)
    && forall i :: 1 <= i < |opts| ==> opts[i] > 0 && 1 <= Dist(opts[i], correct) <= 5
  }

  function Dist(a: int, b: int): nat
  {
    if a >= b then a - b else b - a
  }

  /** The candidate produced by one (offset, sign) pair of draws. */
  function Candidate(correct: int, draw: (Rand, Rand)): (c: int)
    ensures 1 <= Dist(c, correct) <= 5
  {
    var offset := DrawInt(draw.0, 5, 1);
    var sign := if draw.1 > 0.5 then 1 else -1;
    correct + offset * sign
  }

  /** One pass of the distractor loop: the candidate joins the option set when
      it is positive, differs from the correct answer and is new. */
  function AddCandidate(correct: int, opts: seq<int>, draw: (Rand, Rand)): (r: seq<int>)
    requires PartialOptions(correct, opts) && |opts| < 4
    ensures PartialOptions(correct, r)
    ensures r == opts || (|r| == |opts| + 1 && r[..|opts|] == opts)
    ensures |r| == |opts| + 1 <==> Candidate(correct, draw) > 0 && Candidate(correct, draw) !in opts
    ensures |r| == |opts| + 1 ==> r[|opts|] == Candidate(correct, draw)
  {
    var c := Candidate(correct, draw);
    if c > 0 && c != correct && c !in opts then opts + [c] else opts
  }

  /** The distractor loop run on a finite stream of draws. `None` means the
      stream ran out before four options were collected. */
  function Collect(correct: int, opts: seq<int>, draws: seq<(Rand, Rand)>): (r: Option<seq<int>>)
    requires PartialOptions(correct, opts)
    ensures r.Some? ==> PartialOptions(correct, r.value) && |r.value| == 4
    ensures r.Some? ==> r.value[..|opts|] == opts
    decreases |draws|
  {
    if |opts| >= 4 then Some(opts)
    else if |draws| == 0 then None
    else Collect(correct, AddCandidate(correct, opts, draws[0]), draws[1..])
  }

  /** `Array.from(set).sort(() => Math.random() - 0.5)`: an arbitrary
      reordering. Each pick chooses which remaining element comes next, so
      every permutation is reachable and nothing else is. */
  function Shuffle(xs: seq<int>, picks: seq<nat>): (r: seq<int>)
    ensures |r| == |xs|
    ensures multiset(r) == multiset(xs)
    decreases |xs|
  {
    if |xs| == 0 then []
    else
      var k := (if |picks| > 0 then picks[0] else 0) % |xs|;
      var rest := xs[..k] + xs[k + 1..];
      assert xs == xs[..k] + [xs[k]] + xs[k + 1..];
      [xs[k]] + Shuffle(rest, if |picks| > 0 then picks[1..] else [])
  }

  /** All random input consumed by one call of the generator. */
  datatype QuestionDraws = QuestionDraws(first: Rand, second: Rand, distractors: seq<(Rand, Rand)>, order: seq<nat>)

  /** What every generated question satisfies. */
  predicate WellFormedQuestion(q: Question)
  {
    && q.correctAnswer == q.factorA * q.factorB
    && |q.options| == 4
    && Distinct(q.options)
    && q.correctAnswer in q.options
    && (forall i :: 0 <= i < |q.options| ==> q.options[i] > 0)
    && (forall i :: 0 <= i < |q.options| && q.options[i] != q.correctAnswer ==>
          1 <= Dist(q.options[i], q.correctAnswer) <= 5)
  }

  /** The factors a question for table `id` may carry. */
  predicate FitsTable(id: TableId, q: Question)
  {
    match id
    case Mixed => 2 <= q.factorA <= 10 && 2 <= q.factorB <= 10
    case Num(k) => (q.factorA == k && 1 <= q.factorB <= 10) || (q.factorB == k && 1 <= q.factorA <= 10)
  }

  /** Builds one question for table `id`. `None` means the distractor draws
      ran out before the loop finished. */
  function GenerateQuestion(id: TableId, draws: QuestionDraws): (r: Option<Question>)
    ensures r.Some? ==> WellFormedQuestion(r.value) && FitsTable(id, r.value)
  {
    var f := Factors(id, draws.first, draws.second);
    var correct := f.0 * f.1;
    var collected := Collect(correct, [correct], draws.distractors);
    if collected.None? then None
    else
      AssembledQuestionWellFormed(f.0, f.1, collected.value, draws.order);
      Some(Question(f.0, f.1, correct, Shuffle(collected.value, draws.order)))
  }

  /** Factors of at least 1 and a full option list give a well-formed question. */
  lemma AssembledQuestionWellFormed(a: int, b: int, opts: seq<int>, order: seq<nat>)
    requires a >= 1 && b >= 1
    requires PartialOptions(a * b, opts) && |opts| == 4
    ensures WellFormedQuestion(Question(a, b, a * b, Shuffle(opts, order)))
  {
    MulPositive(a, b);
    ShuffledOptionsWellFormed(a * b, opts, Shuffle(opts, order));
  }

  /** Reordering the collected options keeps them a valid option list. */
  lemma ShuffledOptionsWellFormed(correct: int, opts: seq<int>, shuffled: seq<int>)
    requires correct > 0
    requires PartialOptions(correct, opts) && |opts| == 4
    requires multiset(shuffled) == multiset(opts)
    ensures |shuffled| == 4 && Distinct(shuffled) && correct in shuffled
    ensures forall i :: 0 <= i < |shuffled| ==> shuffled[i] > 0
    ensures forall i :: 0 <= i < |shuffled| && shuffled[i] != correct ==> 1 <= Dist(shuffled[i], correct) <= 5
  {
    assert |shuffled| == |multiset(shuffled)| == |multiset(opts)| == 4;
    forall i | 0 <= i < |shuffled|
      ensures shuffled[i] in opts
    {
      assert shuffled[i] in multiset(shuffled);
    }
    assert correct in multiset(opts);
    DistinctIffSetSize(opts);
    assert Elems(shuffled) == Elems(opts) by {
      forall x
        ensures x in shuffled <==> x in opts
      {
        assert x in shuffled <==> x in multiset(shuffled);
        assert x in opts <==> x in multiset(opts);
      }
    }
    DistinctIffSetSize(shuffled);
  }

  /** The elements of a sequence, as a set. */
  function Elems<T>(s: seq<T>): set<T>
  {
    set x | x in s
  }

  /** A sequence is duplicate-free exactly when its set of elements is as large as it. */
  lemma {:induction false} DistinctIffSetSize<T>(s: seq<T>)
    ensures |Elems(s)| <= |s|
    ensures Distinct(s) <==> |Elems(s)| == |s|
    decreases |s|
  {
    if |s| > 0 {
      var p := s[..|s| - 1];
      var x := s[|s| - 1];
      assert s == p + [x];
      assert Elems(s) == Elems(p) + {x};
      DistinctIffSetSize(p);
      if x in p {
        assert Elems(s) == Elems(p);
        var j :| 0 <= j < |p| && p[j] == x;
        assert s[j] == s[|s| - 1];
      } else {
        assert |Elems(s)| == |Elems(p)| + 1;
        assert Distinct(s) <==> Distinct(p);
      }
    }
  }

  /** A draw pair whose candidate the loop accepts. */
  predicate Accepts(correct: int, opts: seq<int>, offsetDraw: Rand, signDraw: Rand)
    requires PartialOptions(correct, opts) && |opts| < 4
  {
    |AddCandidate(correct, opts, (offsetDraw, signDraw))| == |opts| + 1
  }

  /** The loop can always make progress: as long as fewer than four options
      are collected, some pair of draws adds one. The candidates correct+1,
      correct+2 and correct+3 are positive, and at most two of them can be
      taken already. */
  lemma AlwaysAcceptableDraw(correct: int, opts: seq<int>)
    requires correct >= 1
    requires PartialOptions(correct, opts) && |opts| < 4
    ensures exists offsetDraw: Rand, signDraw: Rand :: Accepts(correct, opts, offsetDraw, signDraw)
  {
    var up: Rand := 0.75;
    if correct + 1 !in opts {
      assert Candidate(correct, (0.0, up)) == correct + 1;
      assert Accepts(correct, opts, 0.0, up);
    } else if correct + 2 !in opts {
      assert Candidate(correct, (0.25, up)) == correct + 2;
      assert Accepts(correct, opts, 0.25, up);
    } else if correct + 3 !in opts {
      assert Candidate(correct, (0.5, up)) == correct + 3;
      assert Accepts(correct, opts, 0.5, up);
    } else {
      DistinctIffSetSize(opts);
      assert {correct, correct + 1, correct + 2, correct + 3} <= Elems(opts);
      assert |{correct, correct + 1, correct + 2, correct + 3}| == 4;
      SubsetSize({correct, correct + 1, correct + 2, correct + 3}, Elems(opts));
      assert false;
    }
  }

  lemma SubsetSize<T>(a: set<T>, b: set<T>)
    requires a <= b
    ensures |a| <= |b|
  {
    assert b == a + (b - a);
  }

  /** Three draws that always finish the loop: offsets 1, 2 and 3, all upward. */
  const FinishingDraws: seq<(Rand, Rand)> := [(0.0, 0.75), (0.25, 0.75), (0.5, 0.75)]

  /** The generator always has a way to finish: whatever the factor draws,
      three distractor draws suffice. */
  lemma GenerateQuestionCanFinish(id: TableId, first: Rand, second: Rand, order: seq<nat>)
    ensures GenerateQuestion(id, QuestionDraws(first, second, FinishingDraws, order)).Some?
  {
    var f := Factors(id, first, second);
    MulPositive(f.0, f.1);
    FinishingDrawsCollect(f.0 * f.1);
  }

  /** With a positive answer, the finishing draws add correct+1, +2 and +3. */
  lemma FinishingDrawsCollect(c: int)
    requires c >= 1
    ensures Collect(c, [c], FinishingDraws) == Some([c, c + 1, c + 2, c + 3])
  {
    FinishingCandidates(c);
    var o1 := AddCandidate(c, [c], FinishingDraws[0]);
    assert o1 == [c, c + 1];
    var o2 := AddCandidate(c, o1, FinishingDraws[1]);
    assert o2 == [c, c + 1, c + 2];
    var o3 := AddCandidate(c, o2, FinishingDraws[2]);
    assert o3 == [c, c + 1, c + 2, c + 3];
    assert FinishingDraws[1..][1..] == [FinishingDraws[2]];
    assert Collect(c, o3, FinishingDraws[1..][1..][1..]) == Some(o3);
  }

  lemma FinishingCandidates(c: int)
    ensures Candidate(c, FinishingDraws[0]) == c + 1
    ensures Candidate(c, FinishingDraws[1]) == c + 2
    ensures Candidate(c, FinishingDraws[2]) == c + 3
  {
    assert DrawInt(0.0, 5, 1) == 1;
    assert DrawInt(0.25, 5, 1) == 2;
    assert DrawInt(0.5, 5, 1) == 3;
  }

  lemma MulPositive(a: int, b: int)
    requires a >= 1 && b >= 1
    ensures a * b >= 1
  {
  }
}
