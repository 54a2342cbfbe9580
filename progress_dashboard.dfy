/** The progress view's selection rules: which badge an achievement shows,
    which badges are still locked, the recent quiz-history window and its
    numbering, the colour of a quiz score, and the leaderboard medals. */
module ProgressDashboard {
  import opened Sequences
  import opened Percentages

  // ---------------------------------------------------------------------------
  // Achievements

  datatype Badge = Badge(emoji: string, color: string)

  /** An unlocked achievement as the progress record lists it. */
  datatype Achievement = Achievement(badgeId: string, name: string)

  /** The badge table's keys, in the order the table lists them. */
  const BadgeIds: seq<string> :=
    ["first_quiz", "quiz_master", "perfect_score", "week_streak", "alphabet_master", "high_scorer"]

  const AchievementBadges: map<string, Badge> := map[
    "first_quiz" := Badge("\U{1F3AF}", "bg-blue-500"),
    "quiz_master" := Badge("\U{1F3C6}", "bg-yellow-500"),
    "perfect_score" := Badge("\U{1F4AF}", "bg-green-500"),
    "week_streak" := Badge("\U{1F525}", "bg-orange-500"),
    "alphabet_master" := Badge("\U{1F4DA}", "bg-purple-500"),
    "high_scorer" := Badge("\U{2B50}", "bg-pink-500")
  ]

  /** The badge shown for an achievement the table does not know. */
  const FallbackBadge: Badge := Badge("\U{1F396}\U{FE0F}", "bg-gray-500")

  /** The listed ids are the table's keys, six of them, each once. */
  lemma BadgeIdsAreKeys()
    ensures |BadgeIds| == 6 && Distinct(BadgeIds)
    ensures forall id :: id in AchievementBadges <==> id in BadgeIds
  {
  }

  /** The names a plain object literal inherits from `Object.prototype`.
      Looking one of them up in the badge table finds a function (or, for
      `__proto__`, the prototype object itself): a truthy value that has no
      `emoji` and no `color`. */
  const PrototypeMembers: set<string> := {
    "constructor", "hasOwnProperty", "isPrototypeOf", "propertyIsEnumerable",
    "toString", "toLocaleString", "valueOf", "__proto__",
    "__defineGetter__", "__defineSetter__", "__lookupGetter__", "__lookupSetter__"
  }

  /** What the view renders for a lookup that finds an inherited member:
      `{badge.emoji}` of `undefined` renders nothing, and the class string
      `${badge.color}` becomes the text "undefined". */
  const InheritedBadge: Badge := Badge("", "undefined")

  /** `achievementBadges[id] || fallback`: the table's own entry, else an
      inherited member (truthy, so the fallback is skipped), else the
      fallback. */
  function BadgeFor(id: string): (b: Badge)
    ensures id in AchievementBadges ==> b == AchievementBadges[id]
    ensures id !in AchievementBadges && id in PrototypeMembers ==> b == InheritedBadge
  {
    if id in AchievementBadges then AchievementBadges[id]
    else if id in PrototypeMembers then InheritedBadge
    else FallbackBadge
  }

  /** No badge of the table and no inherited member looks like the fallback,
      so the fallback is shown exactly for the ids that are neither a key of
      the table nor a name every object inherits. */
  lemma FallbackOnlyForUnknown(id: string)
    ensures BadgeFor(id) == FallbackBadge <==> id !in AchievementBadges && id !in PrototypeMembers
  {
    if id in AchievementBadges {
      assert AchievementBadges[id].color != FallbackBadge.color;
    }
  }

  /** An id naming an inherited member gets neither its table badge (it has
      none) nor the fallback, but a badge with no emoji and the colour class
      "undefined". */
  lemma InheritedIdsMissTheFallback(id: string)
    requires id in PrototypeMembers
    ensures id !in AchievementBadges
    ensures BadgeFor(id) == InheritedBadge && BadgeFor(id) != FallbackBadge
  {
    BadgeIdsAreKeys();
    assert id !in BadgeIds;
  }

  /** `achievements.some(a => a.badgeId === id)`. */
  function IsUnlocked(achievements: seq<Achievement>, id: string): (b: bool)
    ensures b <==> exists i :: 0 <= i < |achievements| && achievements[i].badgeId == id
  {
    if |achievements| == 0 then false
    else achievements[0].badgeId == id || IsUnlocked(achievements[1..], id)
  }

  /** The ids of `ids` that no achievement unlocks, in their order. */
  function Locked(ids: seq<string>, achievements: seq<Achievement>): (r: seq<string>)
    ensures |r| <= |ids|
    ensures forall id :: id in r <==> id in ids && !IsUnlocked(achievements, id)
  {
    if |ids| == 0 then []
    else if IsUnlocked(achievements, ids[0]) then Locked(ids[1..], achievements)
    else [ids[0]] + Locked(ids[1..], achievements)
  }

  /** The ids of `ids` that some achievement unlocks, in their order. */
  function Unlocked(ids: seq<string>, achievements: seq<Achievement>): (r: seq<string>)
    ensures |r| <= |ids|
    ensures forall id :: id in r <==> id in ids && IsUnlocked(achievements, id)
  {
    if |ids| == 0 then []
    else if IsUnlocked(achievements, ids[0]) then [ids[0]] + Unlocked(ids[1..], achievements)
    else Unlocked(ids[1..], achievements)
  }

  /** The locked badges of the view: the table's entries, filtered. */
  function LockedBadges(achievements: seq<Achievement>): (r: seq<string>)
    ensures forall id :: id in r <==> id in AchievementBadges && !IsUnlocked(achievements, id)
  {
    BadgeIdsAreKeys();
    Locked(BadgeIds, achievements)
  }

  /** The filter keeps the table's order: filtering a concatenation filters
      each part and concatenates the results. */
  lemma {:induction false} LockedKeepsOrder(ids1: seq<string>, ids2: seq<string>, achievements: seq<Achievement>)
    ensures Locked(ids1 + ids2, achievements) == Locked(ids1, achievements) + Locked(ids2, achievements)
  {
    if |ids1| == 0 {
      assert ids1 + ids2 == ids2;
    } else {
      assert (ids1 + ids2)[0] == ids1[0];
      assert (ids1 + ids2)[1..] == ids1[1..] + ids2;
      LockedKeepsOrder(ids1[1..], ids2, achievements);
    }
  }

  /** Every id is either locked or unlocked, never both: the two lists
      split the ids between them. */
  lemma {:induction false} LockedPartition(ids: seq<string>, achievements: seq<Achievement>)
    requires Distinct(ids)
    ensures Distinct(Locked(ids, achievements)) && Distinct(Unlocked(ids, achievements))
    ensures |Locked(ids, achievements)| + |Unlocked(ids, achievements)| == |ids|
    ensures forall id :: id in Locked(ids, achievements) ==> id !in Unlocked(ids, achievements)
  {
    if |ids| > 0 {
      assert Distinct(ids[1..]);
      LockedPartition(ids[1..], achievements);
    }
  }

  /** With the badge table: the locked and the unlocked known badges are
      disjoint and together make up all six. */
  lemma LockedBadgesPartition(achievements: seq<Achievement>)
    ensures |LockedBadges(achievements)| + |Unlocked(BadgeIds, achievements)| == 6
    ensures forall id :: id in AchievementBadges ==>
      (id in LockedBadges(achievements) <==> id !in Unlocked(BadgeIds, achievements))
  {
    BadgeIdsAreKeys();
    LockedPartition(BadgeIds, achievements);
  }

  // ---------------------------------------------------------------------------
  // Quiz history

  function Reverse<T>(s: seq<T>): (r: seq<T>)
    ensures |r| == |s|
    ensures forall i :: 0 <= i < |s| ==> r[i] == s[|s| - 1 - i]
  {
    if |s| == 0 then [] else Reverse(s[1..]) + [s[0]]
  }

  const HistoryWindow: nat := 10

  /** `quizHistory.slice(-10).reverse()`. */
  function RecentHistory<T>(history: seq<T>): (r: seq<T>)
    ensures |r| <= HistoryWindow && |r| <= |history|
    ensures forall x :: x in r ==> x in history
  {
    var n := |history|;
    Reverse(history[if n > HistoryWindow then n - HistoryWindow else 0..])
  }

  /** The label number of the `index`-th displayed entry. */
  function QuizNumber(historyLength: nat, index: nat): int
  {
    historyLength - index
  }

  /** The window shows the last ten entries or all of them, newest first. */
  lemma RecentHistoryNewestFirst<T>(history: seq<T>)
    ensures |RecentHistory(history)| == if |history| < HistoryWindow then |history| else HistoryWindow
    ensures forall i :: 0 <= i < |RecentHistory(history)| ==>
      RecentHistory(history)[i] == history[|history| - 1 - i]
  {
  }

  /** "Quiz #" numbers count from 1 at the oldest entry of the whole history:
      entry `i` of the window is entry number `QuizNumber` of the history, and
      the numbers fall by one down the list. */
  lemma QuizNumberIsPosition<T>(history: seq<T>, i: nat)
    requires i < |RecentHistory(history)|
    ensures 1 <= QuizNumber(|history|, i) <= |history|
    ensures RecentHistory(history)[i] == history[QuizNumber(|history|, i) - 1]
    ensures i + 1 < |RecentHistory(history)| ==>
      QuizNumber(|history|, i + 1) == QuizNumber(|history|, i) - 1
  {
    RecentHistoryNewestFirst(history);
  }

  datatype ScoreColor = Green | Yellow | Red

  /** The colour of a quiz score. A positive score out of 0 questions is
      `Infinity` per cent and so green; 0 out of 0 is `NaN`, which fails every
      comparison and so is red. */
  function ColorOf(score: nat, totalQuestions: nat): (c: ScoreColor)
    ensures totalQuestions > 0 ==> (c == Green <==> Percentage(score, totalQuestions) >= 80.0)
    ensures totalQuestions > 0 ==>
      (c == Yellow <==> 60.0 <= Percentage(score, totalQuestions) < 80.0)
    ensures totalQuestions > 0 ==> (c == Red <==> Percentage(score, totalQuestions) < 60.0)
    ensures totalQuestions == 0 ==> (c == Green <==> score > 0)
    ensures totalQuestions == 0 ==> c != Yellow
  {
    if totalQuestions == 0 then
      (if score > 0 then Green else Red)
    else
      PercentageAtLeast(score, totalQuestions, 80);
      PercentageAtLeast(score, totalQuestions, 60);
      if 100 * score >= 80 * totalQuestions then Green
      else if 100 * score >= 60 * totalQuestions then Yellow
      else Red
  }

  /** A better score out of the same number of questions never gets a worse
      colour. */
  lemma ColorMonotone(s1: nat, s2: nat, totalQuestions: nat)
    requires s1 <= s2
    ensures ColorOf(s1, totalQuestions) == Green ==> ColorOf(s2, totalQuestions) == Green
    ensures ColorOf(s2, totalQuestions) == Red ==> ColorOf(s1, totalQuestions) == Red
  {
  }

  // ---------------------------------------------------------------------------
  // Leaderboard

  /** What a leaderboard row shows before the user's name. */
  datatype Marker = Gold | Silver | Bronze | RankNumber(rank: int)

  /** The medal for the first three rows, `#rank` for the others. */
  function MarkerFor(index: nat, rank: int): (m: Marker)
    ensures index < 3 <==> !m.RankNumber?
    ensures index >= 3 ==> m == RankNumber(rank)
  {
    if index == 0 then Gold
    else if index == 1 then Silver
    else if index == 2 then Bronze
    else RankNumber(rank)
  }

  /** Whether a leaderboard row gets the highlighted background. */
  function Highlighted(index: nat): bool
  {
    index < 3
  }

  /** Exactly the medal rows are highlighted, and the three medals differ, so
      each goes to one row only. */
  lemma MedalsMatchHighlight(i: nat, j: nat, ri: int, rj: int)
    ensures Highlighted(i) <==> !MarkerFor(i, ri).RankNumber?
    ensures Highlighted(i) && Highlighted(j) && MarkerFor(i, ri) == MarkerFor(j, rj) ==> i == j
  {
  }
}
