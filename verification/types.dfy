/**
  The data model of the game: table identifiers, themes, the learner's
  profile with its per-table progress, questions and shop items.
 */
module Types {

  /** The numeric multiplication tables, 1 to 10. */
  type TableNumber = n: int | 1 <= n <= 10 witness 1

  /** A table identifier: one of the numeric tables, or the 'mixed' challenge. */
  datatype TableId = Num(n: TableNumber) | Mixed

  /** The cosmetic themes the learner can choose from. */
  datatype ThemeId = Wizard | Princess | Robot | Soccer

  /** Cosmetic selections shown on the avatar; each is a catalog value. */
  datatype AvatarConfig = AvatarConfig(baseColor: string, accessory: string, expression: string)

  /** Mastery of one table: stars are documented as 0 to 3. */
  datatype TableProgress = TableProgress(stars: int, highScore: int, isUnlocked: bool)

  /** The learner's persisted state. The progress record is keyed by table id. */
  datatype UserProfile = UserProfile(
    name: string,
    themeId: ThemeId,
    avatar: AvatarConfig,
    xp: int,
    level: int,
    coins: int,
    unlockedItems: seq<string>,
    progress: map<TableId, TableProgress>)

  /** One multiple-choice question. */
  datatype Question = Question(factorA: int, factorB: int, correctAnswer: int, options: seq<int>)

  /** What a shop item changes on the avatar. */
  datatype ItemKind = Color | Accessory | Expression

  /** An entry of the static shop catalog. */
  datatype ShopItem = ShopItem(id: string, kind: ItemKind, name: string, cost: int, value: string, reqLevel: int)

  /** Every table id, in the dashboard's display order. */
  const AllTableIds: seq<TableId> :=
    [Num(1), Num(2), Num(3), Num(4), Num(5), Num(6), Num(7), Num(8), Num(9), Num(10), Mixed]

  /** No repeated element. */
  predicate Distinct<T(==)>(s: seq<T>)
  {
    forall i, j :: 0 <= i < j < |s| ==> s[i] != s[j]
  }

  /** A table id is exactly one of the ten numeric tables or 'mixed': the
      list above names each of the eleven values once. */
  lemma AllTableIdsComplete(id: TableId)
    ensures id in AllTableIds
    ensures Distinct(AllTableIds)
    ensures |AllTableIds| == 11
  {
    match id
    case Mixed =>
      assert AllTableIds[10] == id;
    case Num(n) =>
      assert AllTableIds[n - 1] == id;
  }
}
