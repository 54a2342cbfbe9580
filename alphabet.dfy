/** The alphabet reference view: a selected letter, moved by Previous and Next
    with wrap-around or set from the letter grids, and the description and tip
    tables looked up for it. */
module Alphabet {
  import opened Sequences

  /** `'ABCDEFGHIJKLMNOPQRSTUVWXYZ'.split('')`. */
  const Letters: seq<char> := "ABCDEFGHIJKLMNOPQRSTUVWXYZ"

  const SignDescriptions: map<char, string> := map[
    'A' := "Make a fist with thumb extended to the side",
    'B' := "Hold all fingers together pointing up, thumb across palm",
    'C' := "Curve all fingers to form a C shape",
    'D' := "Point index finger up, other fingers touch thumb",
    'E' := "Curl all fingers down over thumb",
    'F' := "Touch thumb and index fingertips, other fingers extended",
    'G' := "Point index finger and thumb sideways",
    'H' := "Extend index and middle fingers together horizontally",
    'I' := "Extend pinky finger upward, other fingers folded",
    'J' := "Draw a J shape in the air with pinky finger",
    'K' := "Extend index and middle fingers in V shape, thumb between them",
    'L' := "Make L shape with thumb and index finger",
    'M' := "Fold thumb under three fingers",
    'N' := "Fold thumb under two fingers",
    'O' := "Form circle with all fingertips touching",
    'P' := "Point index and middle fingers down",
    'Q' := "Point index finger and thumb downward",
    'R' := "Cross index and middle fingers",
    'S' := "Make a fist with thumb in front",
    'T' := "Tuck thumb between index and middle finger in fist",
    'U' := "Extend index and middle fingers together upward",
    'V' := "Make V with index and middle fingers",
    'W' := "Extend index, middle, and ring fingers",
    'X' := "Bend index finger into hook shape",
    'Y' := "Extend thumb and pinky, fold other fingers",
    'Z' := "Draw Z shape in the air with index finger"
  ]

  const Tips: map<char, string> := map[
    'A' := "Keep your fist tight, thumb should point sideways not up",
    'B' := "Fingers should be straight and together, thumb flat across palm",
    'C' := "Maintain the curve, dont close into O shape",
    'D' := "Index finger should point straight up",
    'E' := "All fingertips should touch the top of your palm",
    'F' := "Circle between thumb and index should be clear",
    'G' := "Point sideways like pointing at something",
    'H' := "Fingers should be together and horizontal",
    'I' := "Only pinky up, make sure other fingers are tucked",
    'J' := "Draw the J motion smoothly",
    'K' := "Three distinct parts: index, middle, and thumb",
    'L' := "Clear 90-degree angle",
    'M' := "Three fingers over thumb",
    'N' := "Two fingers over thumb",
    'O' := "Perfect circle with all fingers",
    'P' := "Fingers point down at 45-degree angle",
    'Q' := "Similar to P but both fingers and thumb point down",
    'R' := "Fingers should be crossed, not just touching",
    'S' := "Thumb clearly visible in front",
    'T' := "Thumb tucked between first two fingers",
    'U' := "Two fingers together, straight up",
    'V' := "Clear V shape, fingers apart",
    'W' := "Three fingers extended and separated",
    'X' := "Hook shape with index finger",
    'Y' := "Shaka sign - thumb and pinky out",
    'Z' := "Draw a clear Z in the air"
  ]

  const InitialLetter: char := 'A'

  /** The alphabet is A to Z in order, each letter once, and starts the view
      on a letter of it. */
  lemma LettersAreAlphabet()
    ensures |Letters| == 26
    ensures forall i :: 0 <= i < |Letters| ==> Letters[i] as int == 'A' as int + i
    ensures Distinct(Letters)
    ensures InitialLetter in Letters && IndexOf(Letters, InitialLetter) == 0
  {
  }

  /** Both tables have an entry for exactly the letters of the alphabet, so
      looking up the selected letter always finds one. */
  lemma TablesCoverAlphabet()
    ensures forall c :: c in SignDescriptions <==> c in Letters
    ensures forall c :: c in Tips <==> c in Letters
  {
  }

  /** The one fact about the alphabet that navigation relies on. */
  lemma LettersDistinct()
    ensures |Letters| == 26 && Distinct(Letters)
  {
    LettersAreAlphabet();
  }

  // ---------------------------------------------------------------------------
  // Navigation

  /** The Next button's index in a list of `n` letters: one on, or back to 0
      from the last letter (and to 0 from -1, what `indexOf` gives for a
      letter not in the list). */
  function NextIndex(n: nat, i: int): (j: nat)
    requires -1 <= i < n && 0 < n
    ensures j < n
    ensures i < n - 1 ==> j == i + 1
    ensures i == n - 1 ==> j == 0
  {
    if i < n - 1 then i + 1 else 0
  }

  /** The Previous button's index: one back, or to the last letter from 0
      (and from -1). */
  function PrevIndex(n: nat, i: int): (j: nat)
    requires -1 <= i < n && 0 < n
    ensures j < n
    ensures 0 < i ==> j == i - 1
    ensures i <= 0 ==> j == n - 1
  {
    if i > 0 then i - 1 else n - 1
  }

  /** The letter after `c` in the cyclic list `s`. */
  function NextIn(s: seq<char>, c: char): (r: char)
    requires 0 < |s|
    ensures r in s
  {
    s[NextIndex(|s|, IndexOf(s, c))]
  }

  /** The letter before `c` in the cyclic list `s`. */
  function PrevIn(s: seq<char>, c: char): (r: char)
    requires 0 < |s|
    ensures r in s
  {
    s[PrevIndex(|s|, IndexOf(s, c))]
  }

  /** The letter selected by Next. */
  function NextLetter(c: char): (r: char)
    ensures r in Letters
  {
    NextIn(Letters, c)
  }

  /** The letter selected by Previous. */
  function PrevLetter(c: char): (r: char)
    ensures r in Letters
  {
    PrevIn(Letters, c)
  }

  lemma NextInAt(s: seq<char>, i: nat)
    requires Distinct(s) && i < |s|
    ensures NextIn(s, s[i]) == if i < |s| - 1 then s[i + 1] else s[0]
  {
    IndexOfDistinct(s, i);
  }

  lemma PrevInAt(s: seq<char>, i: nat)
    requires Distinct(s) && i < |s|
    ensures PrevIn(s, s[i]) == if 0 < i then s[i - 1] else s[|s| - 1]
  {
    IndexOfDistinct(s, i);
  }

  /** Next moves from letter i to letter i + 1, and from Z to A. */
  lemma NextMovesForward(i: nat)
    requires i < |Letters|
    ensures i < |Letters| - 1 ==> NextLetter(Letters[i]) == Letters[i + 1]
    ensures i == |Letters| - 1 ==> NextLetter(Letters[i]) == 'A'
  {
    LettersDistinct();
    NextInAt(Letters, i);
  }

  /** Previous moves from letter i to letter i - 1, and from A to Z. */
  lemma PrevMovesBack(i: nat)
    requires i < |Letters|
    ensures 0 < i ==> PrevLetter(Letters[i]) == Letters[i - 1]
    ensures i == 0 ==> PrevLetter(Letters[i]) == 'Z'
  {
    LettersDistinct();
    PrevInAt(Letters, i);
  }

  lemma RoundTripIn(s: seq<char>, c: char)
    requires Distinct(s) && c in s
    ensures PrevIn(s, NextIn(s, c)) == c
    ensures NextIn(s, PrevIn(s, c)) == c
  {
    var n, i := |s|, IndexOf(s, c);
    NextInAt(s, i);
    PrevInAt(s, i);
    NextInAt(s, PrevIndex(n, i));
    PrevInAt(s, NextIndex(n, i));
  }

  /** Previous undoes Next, and Next undoes Previous. */
  lemma NextPrevRoundTrip(c: char)
    requires c in Letters
    ensures PrevLetter(NextLetter(c)) == c
    ensures NextLetter(PrevLetter(c)) == c
  {
    LettersDistinct();
    RoundTripIn(Letters, c);
  }

  /** The letter after `k` presses of Next in the cyclic list `s`. */
  function NextTimesIn(s: seq<char>, c: char, k: nat): (r: char)
    requires 0 < |s|
  {
    if k == 0 then c else NextIn(s, NextTimesIn(s, c, k - 1))
  }

  /** The letter after `k` presses of Next. */
  function NextTimes(c: char, k: nat): (r: char)
  {
    NextTimesIn(Letters, c, k)
  }

  // Euclidean remainder facts used by the wrap-around proofs.

  lemma {:induction false} MulGe(d: int, n: int)
    requires 1 <= d && 0 < n
    ensures d * n >= n
  {
    if d > 1 {
      MulGe(d - 1, n);
      assert d * n == (d - 1) * n + n;
    }
  }

  lemma ModOf(q: int, n: int, r: int)
    requires 0 < n && 0 <= r < n
    ensures (q * n + r) % n == r
  {
    var a := q * n + r;
    var q', r' := a / n, a % n;
    assert a == q' * n + r';
    assert (q' - q) * n == r - r' by {
      assert q' * n - q * n == (q' - q) * n;
    }
    if q' > q {
      MulGe(q' - q, n);
    } else if q' < q {
      MulGe(q - q', n);
    }
  }

  lemma ModPlusN(n: int, r: int)
    requires 0 < n && 0 <= r < n
    ensures (r + n) % n == r
  {
    ModOf(1, n, r);
  }

  lemma ModSucc(a: nat, n: nat)
    requires 0 < n
    ensures (a % n + 1) % n == (a + 1) % n
  {
    var q, r := a / n, a % n;
    assert a == q * n + r;
    if r + 1 < n {
      ModOf(q, n, r + 1);
      ModOf(0, n, r + 1);
    } else {
      assert a + 1 == (q + 1) * n + 0;
      ModOf(q + 1, n, 0);
      ModOf(1, n, 0);
    }
  }

  /** The index reached from `i` by `k` presses of Next in a list of `n`. */
  function Rotate(n: nat, i: nat, k: nat): (j: nat)
    requires i < n
    ensures j < n
  {
    if k == 0 then i else NextIndex(n, Rotate(n, i, k - 1))
  }

  lemma {:induction false} RotateMod(n: nat, i: nat, k: nat)
    requires i < n
    ensures Rotate(n, i, k) == (i + k) % n
  {
    if k == 0 {
      ModOf(0, n, i);
    } else {
      RotateMod(n, i, k - 1);
      var j := (i + k - 1) % n;
      ModSucc(i + k - 1, n);
      if j < n - 1 {
        ModOf(0, n, j + 1);
      } else {
        ModOf(1, n, 0);
      }
    }
  }

  lemma {:induction false} NextTimesInRotate(s: seq<char>, c: char, k: nat)
    requires Distinct(s) && c in s
    ensures NextTimesIn(s, c, k) == s[Rotate(|s|, IndexOf(s, c), k)]
  {
    if k > 0 {
      NextTimesInRotate(s, c, k - 1);
      NextInAt(s, Rotate(|s|, IndexOf(s, c), k - 1));
    }
  }

  lemma NextTimesInMod(s: seq<char>, c: char, k: nat)
    requires Distinct(s) && c in s
    ensures NextTimesIn(s, c, k) == s[(IndexOf(s, c) + k) % |s|]
  {
    NextTimesInRotate(s, c, k);
    RotateMod(|s|, IndexOf(s, c), k);
  }

  lemma CycleIn(s: seq<char>, c: char)
    requires Distinct(s) && c in s
    ensures NextTimesIn(s, c, |s|) == c
  {
    NextTimesInRotate(s, c, |s|);
    RotateCycle(|s|, IndexOf(s, c));
  }

  lemma RotateCycle(n: nat, i: nat)
    requires i < n
    ensures Rotate(n, i, n) == i
  {
    RotateMod(n, i, n);
    ModPlusN(n, i);
  }

  /** `k` presses of Next advance the letter's index by `k`, modulo 26. */
  lemma NextTimesIndex(c: char, k: nat)
    requires c in Letters
    ensures NextTimes(c, k) == Letters[(IndexOf(Letters, c) + k) % |Letters|]
  {
    LettersDistinct();
    NextTimesInMod(Letters, c, k);
  }

  /** Twenty-six presses of Next come back to the starting letter. */
  lemma NextCycle(c: char)
    requires c in Letters
    ensures NextTimes(c, |Letters|) == c
  {
    LettersDistinct();
    CycleIn(Letters, c);
  }

  // ---------------------------------------------------------------------------
  // The component's state

  class AlphabetReference {
    var selectedLetter: char

    ghost predicate Valid()
      reads this
    {
      selectedLetter in Letters
    }

    constructor ()
      ensures Valid() && selectedLetter == InitialLetter
    {
      selectedLetter := InitialLetter;
    }

    /** The Previous button. */
    method Previous()
      requires Valid()
      modifies this
      ensures Valid() && selectedLetter == PrevLetter(old(selectedLetter))
    {
      var currentIndex := IndexOf(Letters, selectedLetter);
      var prevIndex := if currentIndex > 0 then currentIndex - 1 else |Letters| - 1;
      assert prevIndex == PrevIndex(|Letters|, currentIndex);
      selectedLetter := Letters[prevIndex];
    }

    /** The Next button. */
    method Next()
      requires Valid()
      modifies this
      ensures Valid() && selectedLetter == NextLetter(old(selectedLetter))
    {
      var currentIndex := IndexOf(Letters, selectedLetter);
      var nextIndex := if currentIndex < |Letters| - 1 then currentIndex + 1 else 0;
      assert nextIndex == NextIndex(|Letters|, currentIndex);
      selectedLetter := Letters[nextIndex];
    }

    /** A button of either letter grid; each shows a letter of the alphabet. */
    method Select(letter: char)
      requires Valid() && letter in Letters
      modifies this
      ensures Valid() && selectedLetter == letter
    {
      selectedLetter := letter;
    }

    /** The description and tip shown for the selected letter. */
    function Shown(): (r: (string, string))
      reads this
      requires Valid()
      ensures selectedLetter in SignDescriptions && selectedLetter in Tips
      ensures r.0 == SignDescriptions[selectedLetter] && r.1 == Tips[selectedLetter]
    {
      TablesCoverAlphabet();
      (SignDescriptions[selectedLetter], Tips[selectedLetter])
    }
  }
}
