/**
 * `re.search(pattern, query, re.IGNORECASE)` for the three shapes of pattern
 * the extractor uses, over ASCII text.
 *
 *   Capture(heads, tail)    (h1|h2|...)(\w+)tail    group 1 is the word
 *   LazyCapture(head, mid)  head.*?mid(\w+)         group 1 is the word
 *   Phrase(heads, b)        (h1|h2|...)\b?          group 0 is the phrase
 *
 * A search tries every start position from 0 upwards and returns the match at
 * the first position where the pattern matches. At one position, the heads are
 * tried in the order a backtracking engine tries them: an optional group
 * `an?` or `(?:ing)?` is greedy, so "on an " comes before "on a ". Literals
 * compare case-insensitively (lower-cased on both sides) and carry no
 * word-boundary check in front of them.
 */
module Regex {
  import opened Wrappers
  import opened Text

  /** One element of what must follow a captured word: a literal character or `\d`. */
  datatype Atom = Lit(c: char) | Digit

  datatype Pattern =
    | Capture(heads: seq<string>, tail: seq<Atom>)
    | LazyCapture(head: string, mid: string)
    | Phrase(heads: seq<string>, boundary: bool)

  /** A non-empty run of `\w` characters. */
  predicate IsWord(w: string) {
    |w| > 0 && forall t :: 0 <= t < |w| ==> IsWordChar(w[t])
  }

  /** The literal `lit` occurs at position `i` of `q`, ignoring case. */
  predicate LiteralAt(q: string, i: nat, lit: string)
    ensures LiteralAt(q, i, lit) ==> i + |lit| <= |q|
    decreases lit
  {
    if lit == [] then i <= |q|
    else i < |q| && LowerChar(q[i]) == LowerChar(lit[0]) && LiteralAt(q, i + 1, lit[1..])
  }

  /** The end of the longest run of `\w` characters starting at `j`. */
  function RunEnd(q: string, j: nat): (k: nat)
    requires j <= |q|
    ensures j <= k <= |q|
    ensures forall t :: j <= t < k ==> IsWordChar(q[t])
    ensures k == |q| || !IsWordChar(q[k])
    decreases |q| - j
  {
    if j < |q| && IsWordChar(q[j]) then RunEnd(q, j + 1) else j
  }

  predicate AtomMatches(a: Atom, c: char) {
    match a
    case Lit(l) => LowerChar(c) == LowerChar(l)
    case Digit => IsDigit(c)
  }

  /** `tail` matches the text starting at position `k`. */
  predicate TailAt(q: string, k: nat, tail: seq<Atom>)
    decreases tail
  {
    if tail == [] then true
    else k < |q| && AtomMatches(tail[0], q[k]) && TailAt(q, k + 1, tail[1..])
  }

  /** `head(\w+)tail` at position `i`, with the longest run of word characters. */
  function ArmAt(q: string, i: nat, head: string, tail: seq<Atom>): (r: Option<string>)
    ensures r.Some? ==> IsWord(r.value)
  {
    if LiteralAt(q, i, head) then
      var j := i + |head|;
      var k := RunEnd(q, j);
      if j < k && TailAt(q, k, tail) then Some(q[j..k]) else None
    else None
  }

  /** The first head, in order, whose arm matches at `i`. */
  function FirstArm(q: string, i: nat, heads: seq<string>, tail: seq<Atom>): (r: Option<string>)
    ensures r.Some? ==> IsWord(r.value)
    decreases heads
  {
    if heads == [] then None
    else
      var m := ArmAt(q, i, heads[0], tail);
      if m.Some? then m else FirstArm(q, i, heads[1..], tail)
  }

  /** `.*?mid(\w+)` from position `p`: the shortest gap without a newline that lets `mid(\w+)` match. */
  function LazyAt(q: string, p: nat, mid: string): (r: Option<string>)
    requires p <= |q|
    ensures r.Some? ==> IsWord(r.value)
    decreases |q| - p
  {
    var m := ArmAt(q, p, mid, []);
    if m.Some? then m
    else if p < |q| && q[p] != '\n' then LazyAt(q, p + 1, mid)
    else None
  }

  /** `\b` at position `k`: exactly one of the characters on either side is a word character. */
  predicate WordBoundary(q: string, k: nat) {
    (0 < k <= |q| && IsWordChar(q[k - 1])) != (k < |q| && IsWordChar(q[k]))
  }

  /** The first head, in order, that occurs at `i` (and is followed by `\b` when `boundary`). */
  function PhraseAt(q: string, i: nat, heads: seq<string>, boundary: bool): Option<string>
    decreases heads
  {
    if heads == [] then None
    else if LiteralAt(q, i, heads[0]) && (!boundary || WordBoundary(q, i + |heads[0]|)) then
      Some(q[i..i + |heads[0]|])
    else PhraseAt(q, i, heads[1..], boundary)
  }

  /** The pattern matched with its start fixed at position `i`; the group the extractor reads. */
  function MatchAt(q: string, i: nat, p: Pattern): Option<string>
    requires i <= |q|
  {
    match p
    case Capture(heads, tail) => FirstArm(q, i, heads, tail)
    case LazyCapture(head, mid) =>
      if LiteralAt(q, i, head) then LazyAt(q, i + |head|, mid) else None
    case Phrase(heads, boundary) => PhraseAt(q, i, heads, boundary)
  }

  function SearchFrom(q: string, p: Pattern, i: nat): Option<string>
    requires i <= |q|
    decreases |q| - i
  {
    var m := MatchAt(q, i, p);
    if m.Some? || i == |q| then m else SearchFrom(q, p, i + 1)
  }

  /** `re.search(p, q, re.IGNORECASE)`, reduced to the group the extractor reads. */
  function Search(q: string, p: Pattern): Option<string> {
    SearchFrom(q, p, 0)
  }

  /** A capture pattern only ever yields a word. */
  lemma {:induction false} SearchCapturesWord(q: string, p: Pattern, i: nat)
    requires i <= |q|
    requires p.Capture? || p.LazyCapture?
    requires SearchFrom(q, p, i).Some?
    ensures IsWord(SearchFrom(q, p, i).value)
    decreases |q| - i
  {
    if MatchAt(q, i, p).None? {
      SearchCapturesWord(q, p, i + 1);
    }
  }

  /** A search finds nothing exactly when the pattern matches at no position. */
  lemma {:induction false} SearchNone(q: string, p: Pattern, i: nat)
    requires i <= |q|
    ensures SearchFrom(q, p, i).None? <==> forall j :: i <= j <= |q| ==> MatchAt(q, j, p).None?
    decreases |q| - i
  {
    if MatchAt(q, i, p).None? && i < |q| {
      SearchNone(q, p, i + 1);
    }
  }

  /** What a search returns is the match at the earliest position where there is one. */
  lemma {:induction false} SearchEarliest(q: string, p: Pattern, i: nat, j: nat)
    requires i <= j <= |q|
    requires MatchAt(q, j, p).Some?
    requires forall t :: i <= t < j ==> MatchAt(q, t, p).None?
    ensures SearchFrom(q, p, i) == MatchAt(q, j, p)
    decreases j - i
  {
    if i < j {
      SearchEarliest(q, p, i + 1, j);
    }
  }

  /** A match anywhere means the search succeeds. */
  lemma SearchFinds(q: string, p: Pattern, j: nat)
    requires j <= |q|
    requires MatchAt(q, j, p).Some?
    ensures Search(q, p).Some?
  {
    SearchNone(q, p, 0);
  }

  // The arm above always takes the longest run of word characters. A
  // backtracking engine takes the longest run after which the tail matches,
  // giving characters back one at a time. The two agree for every tail the
  // extractor uses, because those tails are empty or begin with a space.

  /** Backtracking `(\w+)tail` from the longest run at `j` down to a run of one character. */
  function Backtrack(q: string, j: nat, k: nat, tail: seq<Atom>): Option<string>
    requires j <= k <= |q|
    decreases k
  {
    if k <= j then None
    else if TailAt(q, k, tail) then Some(q[j..k])
    else Backtrack(q, j, k - 1, tail)
  }

  function BacktrackingArmAt(q: string, i: nat, head: string, tail: seq<Atom>): Option<string> {
    if LiteralAt(q, i, head) then
      var j := i + |head|;
      Backtrack(q, j, RunEnd(q, j), tail)
    else None
  }

  /** No shorter run helps when the tail starts with a non-word literal. */
  lemma {:induction false} BacktrackFails(q: string, j: nat, k: nat, tail: seq<Atom>)
    requires j <= k < |q|
    requires tail != [] && tail[0].Lit? && !IsWordChar(tail[0].c)
    requires forall t :: j <= t <= k ==> IsWordChar(q[t])
    ensures Backtrack(q, j, k, tail).None?
    decreases k
  {
    if j < k {
      LowerCharClass(q[k]);
      LowerCharClass(tail[0].c);
      BacktrackFails(q, j, k - 1, tail);
    }
  }

  /** The longest-run arm is what the backtracking engine computes, for the tails in use. */
  lemma ArmAtIsBacktracking(q: string, i: nat, head: string, tail: seq<Atom>)
    requires tail == [] || (tail[0].Lit? && !IsWordChar(tail[0].c))
    ensures ArmAt(q, i, head, tail) == BacktrackingArmAt(q, i, head, tail)
  {
    if LiteralAt(q, i, head) {
      var j := i + |head|;
      var k := RunEnd(q, j);
      if j < k && !TailAt(q, k, tail) {
        BacktrackFails(q, j, k - 1, tail);
      }
    }
  }

  /** A literal that occurs at `i` still occurs, with its first `n` characters dropped, at `i + n`. */
  lemma {:induction false} LiteralAtDrop(q: string, i: nat, lit: string, n: nat)
    requires n <= |lit|
    requires LiteralAt(q, i, lit)
    ensures LiteralAt(q, i + n, lit[n..])
    decreases n
  {
    if n > 0 {
      LiteralAtDrop(q, i + 1, lit[1..], n - 1);
      assert lit[1..][n - 1..] == lit[n..];
    }
  }

  // Every head of the patterns the extractor searches for begins with a
  // letter, so no match starts at a character that is not that letter in
  // either case, and a search can skip every such position.

  /** Every head is non-empty and begins with `c0` or its upper-case form. */
  predicate HeadsStartWith(heads: seq<string>, c0: char)
    decreases heads
  {
    heads == [] || (heads[0] != [] && LowerChar(heads[0][0]) == c0 && HeadsStartWith(heads[1..], c0))
  }

  /** Every match of `p` begins with the letter `c0`, ignoring case. */
  predicate StartsWith(p: Pattern, c0: char) {
    match p
    case Capture(heads, _) => HeadsStartWith(heads, c0)
    case LazyCapture(head, _) => head != [] && LowerChar(head[0]) == c0
    case Phrase(heads, _) => HeadsStartWith(heads, c0)
  }

  lemma {:induction false} NoHeadArm(q: string, t: nat, heads: seq<string>, tail: seq<Atom>, c0: char)
    requires t < |q| && HeadsStartWith(heads, c0) && LowerChar(q[t]) != c0
    ensures FirstArm(q, t, heads, tail).None?
    decreases heads
  {
    if heads != [] {
      NoHeadArm(q, t, heads[1..], tail, c0);
    }
  }

  lemma {:induction false} NoHeadPhrase(q: string, t: nat, heads: seq<string>, boundary: bool, c0: char)
    requires t < |q| && HeadsStartWith(heads, c0) && LowerChar(q[t]) != c0
    ensures PhraseAt(q, t, heads, boundary).None?
    decreases heads
  {
    if heads != [] {
      NoHeadPhrase(q, t, heads[1..], boundary, c0);
    }
  }

  /** No match starts at a character other than the pattern's first letter. */
  lemma NoStartNoMatch(q: string, t: nat, p: Pattern, c0: char)
    requires t < |q| && StartsWith(p, c0) && LowerChar(q[t]) != c0
    ensures MatchAt(q, t, p).None?
  {
    match p
    case Capture(heads, tail) => NoHeadArm(q, t, heads, tail, c0);
    case LazyCapture(head, mid) =>
    case Phrase(heads, boundary) => NoHeadPhrase(q, t, heads, boundary, c0);
  }

  /**
   * A search passes over a stretch of text in which the pattern's first
   * letter occurs only at positions already known not to match.
   */
  lemma {:induction false} SkipRange(q: string, p: Pattern, c0: char, i: nat, j: nat, except: set<nat>)
    requires i <= j <= |q| && StartsWith(p, c0)
    requires forall t :: i <= t < j ==> LowerChar(q[t]) != c0 || t in except
    requires forall t :: i <= t < j && t in except ==> MatchAt(q, t, p).None?
    ensures SearchFrom(q, p, i) == SearchFrom(q, p, j)
    decreases j - i
  {
    if i < j {
      if LowerChar(q[i]) != c0 {
        NoStartNoMatch(q, i, p, c0);
      }
      SkipRange(q, p, c0, i + 1, j, except);
    }
  }

  /** The run of word characters from `j` ends at `k` when `[j, k)` is all word characters and `k` is not one. */
  lemma {:induction false} RunEndAt(q: string, j: nat, k: nat)
    requires j <= k <= |q|
    requires forall t :: j <= t < k ==> IsWordChar(q[t])
    requires k == |q| || !IsWordChar(q[k])
    ensures RunEnd(q, j) == k
    decreases k - j
  {
    if j < k {
      RunEndAt(q, j + 1, k);
    }
  }

  /** A literal occurs at `i` exactly when it fits and every character agrees ignoring case. */
  lemma {:induction false} LiteralAtChars(q: string, i: nat, lit: string)
    ensures LiteralAt(q, i, lit) <==>
      i + |lit| <= |q| && forall t :: 0 <= t < |lit| ==> LowerChar(q[i + t]) == LowerChar(lit[t])
    decreases lit
  {
    if lit != [] {
      LiteralAtChars(q, i + 1, lit[1..]);
      assert forall t :: 1 <= t < |lit| ==> lit[t] == lit[1..][t - 1];
    }
  }

  /** One disagreeing character, ignoring case, rules a literal out. */
  lemma LiteralMismatch(q: string, i: nat, lit: string, t: nat)
    requires t < |lit| && i + t < |q|
    requires LowerChar(q[i + t]) != LowerChar(lit[t])
    ensures !LiteralAt(q, i, lit)
  {
    LiteralAtChars(q, i, lit);
  }

  /** A tail made only of literal characters, such as ` passport`. */
  predicate IsLiteralTail(tail: seq<Atom>) {
    forall t :: 0 <= t < |tail| ==> tail[t].Lit?
  }

  /** A literal tail matches at `k` exactly when each of its characters does, ignoring case. */
  lemma {:induction false} TailAtChars(q: string, k: nat, tail: seq<Atom>)
    requires k <= |q| && IsLiteralTail(tail)
    ensures TailAt(q, k, tail) <==>
      k + |tail| <= |q| && forall t :: 0 <= t < |tail| ==> LowerChar(q[k + t]) == LowerChar(tail[t].c)
    decreases tail
  {
    if tail != [] && k < |q| {
      assert IsLiteralTail(tail[1..]) by {
        forall t | 0 <= t < |tail[1..]| ensures tail[1..][t].Lit? {
          assert tail[1..][t] == tail[t + 1];
        }
      }
      TailAtChars(q, k + 1, tail[1..]);
      assert forall t :: 1 <= t < |tail| ==> tail[t] == tail[1..][t - 1];
      assert k < |q| ==> (AtomMatches(tail[0], q[k]) <==> LowerChar(q[k]) == LowerChar(tail[0].c));
    }
  }

  /** A literal occurs exactly when its two halves occur one after the other. */
  lemma {:induction false} LiteralAtAppend(q: string, i: nat, a: string, b: string)
    ensures LiteralAt(q, i, a + b) <==> LiteralAt(q, i, a) && LiteralAt(q, i + |a|, b)
    decreases a
  {
    if a != [] {
      assert (a + b)[0] == a[0] && (a + b)[1..] == a[1..] + b;
      LiteralAtAppend(q, i + 1, a[1..], b);
    } else {
      assert a + b == b;
    }
  }
}
