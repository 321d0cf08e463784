/** What the heuristic extractor of app/parser.py promises about each field it returns. */
module ExtractorProperties {
  import opened Wrappers
  import opened Text
  import opened Regex
  import opened Utils
  import opened Parser

  // ---------------------------------------------------------------------------
  // First match wins
  // ---------------------------------------------------------------------------

  /** A pattern list yields nothing exactly when none of its patterns matches anywhere. */
  lemma {:induction false} FirstCaptureNone(q: string, ps: seq<Pattern>)
    ensures FirstCapture(q, ps).None? <==> forall k :: 0 <= k < |ps| ==> Search(q, ps[k]).None?
    decreases ps
  {
    if ps != [] {
      FirstCaptureNone(q, ps[1..]);
      assert forall k :: 1 <= k < |ps| ==> ps[k] == ps[1..][k - 1];
    }
  }

  /** When pattern `k` is the first that matches, the list yields its capture. */
  lemma {:induction false} FirstCaptureAt(q: string, ps: seq<Pattern>, k: nat)
    requires k < |ps|
    requires Search(q, ps[k]).Some?
    requires forall j :: 0 <= j < k ==> Search(q, ps[j]).None?
    ensures FirstCapture(q, ps) == Search(q, ps[k])
    decreases k
  {
    if k > 0 {
      assert forall j :: 0 <= j < k - 1 ==> ps[1..][j] == ps[j + 1];
      FirstCaptureAt(q, ps[1..], k - 1);
    }
  }

  /** Scanning a concatenation: the second list is only consulted when the first yields nothing. */
  lemma {:induction false} FirstCaptureAppend(q: string, a: seq<Pattern>, b: seq<Pattern>)
    ensures FirstCapture(q, a + b) ==
      if FirstCapture(q, a).Some? then FirstCapture(q, a) else FirstCapture(q, b)
    decreases a
  {
    if a != [] {
      assert (a + b)[0] == a[0];
      assert (a + b)[1..] == a[1..] + b;
      FirstCaptureAppend(q, a[1..], b);
    } else {
      assert a + b == b;
    }
  }

  /**
   * A pattern that can match only when an earlier pattern `j` of the list
   * matches never decides the result, so removing it changes nothing.
   */
  lemma RemoveSubsumed(q: string, a: seq<Pattern>, x: Pattern, b: seq<Pattern>, j: nat)
    requires j < |a|
    requires Search(q, x).Some? ==> Search(q, a[j]).Some?
    ensures FirstCapture(q, a + [x] + b) == FirstCapture(q, a + b)
  {
    assert a + [x] + b == a + ([x] + b);
    FirstCaptureAppend(q, a, [x] + b);
    FirstCaptureAppend(q, a, b);
    FirstCaptureNone(q, a);
  }

  /** `h(\w+)tail` can only match where `(h|...)(\w+)tail` does: the alternation tries `h` first. */
  lemma FirstHeadSubsumes(q: string, h: string, hs: seq<string>, tail: seq<Atom>)
    ensures Search(q, Capture([h], tail)).Some? ==> Search(q, Capture([h] + hs, tail)).Some?
  {
    var c, b := Capture([h], tail), Capture([h] + hs, tail);
    if Search(q, c).Some? {
      SearchNone(q, c, 0);
      var j :| 0 <= j <= |q| && MatchAt(q, j, c).Some?;
      assert MatchAt(q, j, c) == FirstArm(q, j, [h], tail);
      assert [h][1..] == [] && FirstArm(q, j, [], tail).None?;
      assert MatchAt(q, j, c) == ArmAt(q, j, h, tail);
      assert ([h] + hs)[0] == h;
      assert MatchAt(q, j, b) == ArmAt(q, j, h, tail);
      SearchFinds(q, b, j);
    }
  }

  /** `long(\w+)` matching at `j`, where `long` ends in `h`, means `(h|...)(\w+)` matches where `h` begins. */
  lemma LongerHeadSubsumed(q: string, long: string, n: nat, h: string, hs: seq<string>)
    requires n <= |long| && long[n..] == h
    ensures Search(q, Capture([long], [])).Some? ==> Search(q, Capture([h] + hs, [])).Some?
  {
    var f, b := Capture([long], []), Capture([h] + hs, []);
    if Search(q, f).Some? {
      SearchNone(q, f, 0);
      var j :| 0 <= j <= |q| && MatchAt(q, j, f).Some?;
      assert MatchAt(q, j, f) == FirstArm(q, j, [long], []);
      assert [long][1..] == [] && FirstArm(q, j, [], []).None?;
      assert MatchAt(q, j, f) == ArmAt(q, j, long, []);
      LiteralAtDrop(q, j, long, n);
      assert ArmAt(q, j + n, h, []) == ArmAt(q, j, long, []);
      assert ([h] + hs)[0] == h;
      assert MatchAt(q, j + n, b) == ArmAt(q, j + n, h, []);
      SearchFinds(q, b, j + n);
    }
  }

  /** `traveling to (\w+)` can only match where `travel(?:ing)? to (\w+)` does. */
  lemma TravelingSubsumed(q: string)
    ensures Search(q, DestinationPatterns[2]).Some? ==> Search(q, DestinationPatterns[1]).Some?
  {
    assert DestinationPatterns[1] == Capture(["traveling to "] + ["travel to "], []);
    FirstHeadSubsumes(q, "traveling to ", ["travel to "], []);
  }

  /** `holder traveling to (\w+)` matching at `j` means `travel(?:ing)? to (\w+)` matches at `j + 7`. */
  lemma HolderTravelingSubsumed(q: string)
    ensures Search(q, DestinationPatterns[6]).Some? ==> Search(q, DestinationPatterns[1]).Some?
  {
    assert DestinationPatterns[1] == Capture(["traveling to "] + ["travel to "], []);
    LongerHeadSubsumed(q, "holder traveling to ", 7, "traveling to ", ["travel to "]);
  }

  /**
   * The destination patterns at positions 2, 4, 6 and 7 of the list never
   * change the result: two repeat `going to`, the others can only match
   * where `travel(?:ing)? to` already did.
   */
  lemma DestinationDuplicatesNeverWin(q: string)
    ensures Destination(q) == FirstCapture(q, DistinctDestinationPatterns)
  {
    var d := DestinationPatterns;
    assert d == [d[0], d[1], d[2], d[3], d[4], d[5], d[6], d[7], d[8]];
    assert DistinctDestinationPatterns == [d[0], d[1], d[3], d[5], d[8]];
    TravelingSubsumed(q);
    HolderTravelingSubsumed(q);
    RemoveFourSubsumed(q, d[0], d[1], d[2], d[3], d[4], d[5], d[6], d[7], d[8]);
  }

  /** The list-shape step of `DestinationDuplicatesNeverWin`, for any nine patterns. */
  lemma RemoveFourSubsumed(q: string, d0: Pattern, d1: Pattern, d2: Pattern, d3: Pattern, d4: Pattern,
                           d5: Pattern, d6: Pattern, d7: Pattern, d8: Pattern)
    requires Search(q, d2).Some? ==> Search(q, d1).Some?
    requires Search(q, d4).Some? ==> Search(q, d0).Some?
    requires Search(q, d6).Some? ==> Search(q, d1).Some?
    requires Search(q, d7).Some? ==> Search(q, d0).Some?
    ensures FirstCapture(q, [d0, d1, d2, d3, d4, d5, d6, d7, d8]) == FirstCapture(q, [d0, d1, d3, d5, d8])
  {
    RemoveSubsumed(q, [d0, d1, d2, d3, d4, d5, d6], d7, [d8], 0);
    assert [d0, d1, d2, d3, d4, d5, d6] + [d7] + [d8] == [d0, d1, d2, d3, d4, d5, d6, d7, d8];
    RemoveSubsumed(q, [d0, d1, d2, d3, d4, d5], d6, [d8], 1);
    assert [d0, d1, d2, d3, d4, d5] + [d6] + [d8] == [d0, d1, d2, d3, d4, d5, d6] + [d8];
    RemoveSubsumed(q, [d0, d1, d2, d3], d4, [d5, d8], 0);
    assert [d0, d1, d2, d3] + [d4] + [d5, d8] == [d0, d1, d2, d3, d4, d5] + [d8];
    RemoveSubsumed(q, [d0, d1], d2, [d3, d5, d8], 1);
    assert [d0, d1] + [d2] + [d3, d5, d8] == [d0, d1, d2, d3] + [d5, d8];
    assert [d0, d1] + [d3, d5, d8] == [d0, d1, d3, d5, d8];
  }

  /** Every destination and passport pattern captures a word. */
  lemma {:induction false} FirstCaptureIsWord(q: string, ps: seq<Pattern>)
    requires forall k :: 0 <= k < |ps| ==> ps[k].Capture? || ps[k].LazyCapture?
    ensures FirstCapture(q, ps).Some? ==> IsWord(FirstCapture(q, ps).value)
    decreases ps
  {
    if ps != [] {
      if Search(q, ps[0]).Some? {
        SearchCapturesWord(q, ps[0], 0);
      } else {
        assert forall k :: 0 <= k < |ps| - 1 ==> ps[1..][k] == ps[k + 1];
        FirstCaptureIsWord(q, ps[1..]);
      }
    }
  }

  /** The destination is the word after the first destination pattern, in list order, that matches. */
  lemma DestinationIsFirstMatch(q: string, k: nat)
    requires k < |DestinationPatterns|
    requires Search(q, DestinationPatterns[k]).Some?
    requires forall j :: 0 <= j < k ==> Search(q, DestinationPatterns[j]).None?
    ensures Destination(q) == Search(q, DestinationPatterns[k])
    ensures IsWord(Destination(q).value)
  {
    FirstCaptureAt(q, DestinationPatterns, k);
    SearchCapturesWord(q, DestinationPatterns[k], 0);
  }

  // ---------------------------------------------------------------------------
  // Passport country
  // ---------------------------------------------------------------------------

  /** The passport country is the first passport pattern's word, mapped through the alias table by its lower-case form. */
  lemma PassportCountryFromToken(q: string, k: nat)
    requires k < |PassportPatterns|
    requires Search(q, PassportPatterns[k]).Some?
    requires forall j :: 0 <= j < k ==> Search(q, PassportPatterns[j]).None?
    ensures var token := Search(q, PassportPatterns[k]).value;
      PassportCountry(q) ==
        Some(if Lower(token) in CountryAliases then CountryAliases[Lower(token)] else token)
  {
    FirstCaptureAt(q, PassportPatterns, k);
  }

  /** No passport pattern matching anywhere leaves the passport country undetermined. */
  lemma PassportCountryNone(q: string)
    ensures PassportCountry(q).None? <==> forall k :: 0 <= k < |PassportPatterns| ==> Search(q, PassportPatterns[k]).None?
  {
    FirstCaptureNone(q, PassportPatterns);
  }

  // ---------------------------------------------------------------------------
  // Travel date
  // ---------------------------------------------------------------------------

  /** Pattern `p`'s first match exists and its lower-cased capture is a month name. */
  predicate YieldsMonth(q: string, p: Pattern) {
    var m := Search(q, p);
    m.Some? && Lower(m.value) in MonthNames
  }

  /** The date patterns yield the first match that is a month name; a non-month match passes to the next pattern. */
  lemma {:induction false} FirstMonthCaptureIsFirstMonth(q: string, ps: seq<Pattern>)
    ensures FirstMonthCapture(q, ps).None? <==> forall k :: 0 <= k < |ps| ==> !YieldsMonth(q, ps[k])
    ensures FirstMonthCapture(q, ps).Some? ==>
      Lower(FirstMonthCapture(q, ps).value) in MonthNames &&
      exists k :: 0 <= k < |ps| && Search(q, ps[k]) == FirstMonthCapture(q, ps) &&
        forall j :: 0 <= j < k ==> !YieldsMonth(q, ps[j])
    decreases ps
  {
    if ps != [] {
      FirstMonthCaptureIsFirstMonth(q, ps[1..]);
      assert forall k :: 1 <= k < |ps| ==> ps[k] == ps[1..][k - 1];
      if !YieldsMonth(q, ps[0]) && FirstMonthCapture(q, ps).Some? {
        var k :| 0 <= k < |ps| - 1 && Search(q, ps[1..][k]) == FirstMonthCapture(q, ps[1..]) &&
          forall j :: 0 <= j < k ==> !YieldsMonth(q, ps[1..][j]);
        assert Search(q, ps[k + 1]) == FirstMonthCapture(q, ps);
      }
    }
  }

  /** When pattern `k` is the first whose match is a month name, the date patterns yield that match. */
  lemma {:induction false} FirstMonthCaptureAt(q: string, ps: seq<Pattern>, k: nat)
    requires k < |ps|
    requires YieldsMonth(q, ps[k])
    requires forall j :: 0 <= j < k ==> !YieldsMonth(q, ps[j])
    ensures FirstMonthCapture(q, ps) == Search(q, ps[k])
    decreases k
  {
    if k > 0 {
      assert forall j :: 0 <= j < k - 1 ==> ps[1..][j] == ps[j + 1];
      FirstMonthCaptureAt(q, ps[1..], k - 1);
    }
  }

  /** The fallback gives the capitalised form of the first month, in list order, that occurs anywhere. */
  lemma {:induction false} MentionedMonthIsFirstMention(q: string, months: seq<string>, k: nat)
    requires k < |months|
    requires Search(q, MonthPattern(months[k])).Some?
    requires forall j :: 0 <= j < k ==> Search(q, MonthPattern(months[j])).None?
    ensures MentionedMonth(q, months) == Some(Capitalize(months[k]))
    decreases k
  {
    if k > 0 {
      assert forall j :: 0 <= j < k - 1 ==> months[1..][j] == months[j + 1];
      MentionedMonthIsFirstMention(q, months[1..], k - 1);
    }
  }

  lemma {:induction false} MentionedMonthNone(q: string, months: seq<string>)
    ensures MentionedMonth(q, months).None? <==> forall k :: 0 <= k < |months| ==> Search(q, MonthPattern(months[k])).None?
    decreases months
  {
    if months != [] {
      MentionedMonthNone(q, months[1..]);
      assert forall k :: 1 <= k < |months| ==> months[k] == months[1..][k - 1];
    }
  }

  lemma {:induction false} MentionedMonthIsCapitalized(q: string, months: seq<string>)
    ensures MentionedMonth(q, months).Some? ==>
      exists k :: 0 <= k < |months| && MentionedMonth(q, months).value == Capitalize(months[k])
    decreases months
  {
    if months != [] && Search(q, MonthPattern(months[0])).None? {
      MentionedMonthIsCapitalized(q, months[1..]);
      if MentionedMonth(q, months).Some? {
        var k :| 0 <= k < |months| - 1 && MentionedMonth(q, months[1..]).value == Capitalize(months[1..][k]);
        assert months[1..][k] == months[k + 1];
      }
    }
  }

  lemma MonthNameIsLowerCase(m: string)
    requires m in MonthNames
    ensures Lower(m) == m
  {
    LowerOfLowerCase(m);
  }

  /** A travel date, however it was found, is a month name in some casing. */
  lemma TravelDateIsMonth(q: string)
    ensures TravelDate(q).Some? ==> Lower(TravelDate(q).value) in MonthNames
  {
    FirstMonthCaptureIsFirstMonth(q, DatePatterns);
    var d := FirstMonthCapture(q, DatePatterns);
    if !Truthy(d) && MentionedMonth(q, MonthNames).Some? {
      MentionedMonthIsCapitalized(q, MonthNames);
      var k :| 0 <= k < |MonthNames| && MentionedMonth(q, MonthNames).value == Capitalize(MonthNames[k]);
      LowerOfCapitalize(MonthNames[k]);
      MonthNameIsLowerCase(MonthNames[k]);
    }
  }

  /** No date pattern yields a month: the date is the first month name mentioned, or undetermined. */
  lemma TravelDateFallback(q: string)
    requires forall k :: 0 <= k < |DatePatterns| ==> !YieldsMonth(q, DatePatterns[k])
    ensures TravelDate(q) == MentionedMonth(q, MonthNames)
  {
    FirstMonthCaptureIsFirstMonth(q, DatePatterns);
  }

  // ---------------------------------------------------------------------------
  // Purpose
  // ---------------------------------------------------------------------------

  /** The first keyword whose phrase matches decides the purpose, with "visit" yielding to "family visit". */
  lemma {:induction false} PurposeFromIsFirstKeyword(q: string, keywords: seq<string>, k: nat)
    requires k < |keywords|
    requires Search(q, KeywordPattern(keywords[k])).Some?
    requires forall j :: 0 <= j < k ==> Search(q, KeywordPattern(keywords[j])).None?
    ensures PurposeFrom(q, keywords) ==
      Some(if keywords[k] == "visit" && Search(q, FamilyVisitPattern).Some? then "family visit" else keywords[k])
    decreases k
  {
    if k > 0 {
      assert forall j :: 0 <= j < k - 1 ==> keywords[1..][j] == keywords[j + 1];
      PurposeFromIsFirstKeyword(q, keywords[1..], k - 1);
    }
  }

  lemma {:induction false} PurposeFromNone(q: string, keywords: seq<string>)
    ensures PurposeFrom(q, keywords).None? <==> forall k :: 0 <= k < |keywords| ==> Search(q, KeywordPattern(keywords[k])).None?
    decreases keywords
  {
    if keywords != [] {
      PurposeFromNone(q, keywords[1..]);
      assert forall k :: 1 <= k < |keywords| ==> keywords[k] == keywords[1..][k - 1];
    }
  }

  /** The scan returns one of the keywords, or "family visit". */
  lemma {:induction false} PurposeFromInList(q: string, keywords: seq<string>)
    ensures PurposeFrom(q, keywords).Some? ==>
      PurposeFrom(q, keywords).value in keywords || PurposeFrom(q, keywords).value == "family visit"
    ensures PurposeFrom(q, keywords) == Some("visit") ==> Search(q, FamilyVisitPattern).None?
    decreases keywords
  {
    if keywords != [] {
      PurposeFromInList(q, keywords[1..]);
    }
  }

  lemma KeywordIsLowerCase(k: nat)
    requires k < |PurposeKeywords|
    ensures Lower(PurposeKeywords[k]) == PurposeKeywords[k]
  {
    LowerOfLowerCase(PurposeKeywords[k]);
  }

  /** The normalisation after the keyword loop maps every keyword to itself. */
  lemma NormalizePurposeKeepsKeywords(p: string)
    requires p in PurposeKeywords
    ensures NormalizePurpose(p) == p
  {
    var k :| 0 <= k < |PurposeKeywords| && PurposeKeywords[k] == p;
    KeywordIsLowerCase(k);
  }

  /**
   * The purpose is always one of the eight keywords, the normalisation never
   * changes it, and it is never "visit" when "family visit" occurs in the query.
   */
  lemma PurposeInVocabulary(q: string)
    ensures Purpose(q) == PurposeFrom(q, PurposeKeywords)
    ensures Purpose(q).Some? ==> Purpose(q).value in PurposeKeywords
    ensures Search(q, FamilyVisitPattern).Some? ==> Purpose(q) != Some("visit")
  {
    PurposeFromInList(q, PurposeKeywords);
    var p := PurposeFrom(q, PurposeKeywords);
    if p.Some? {
      NormalizePurposeKeepsKeywords(p.value);
    }
  }

  // ---------------------------------------------------------------------------
  // The all-fields check
  // ---------------------------------------------------------------------------

  lemma NormalizeCountryOfWord(token: string)
    requires token != ""
    ensures NormalizeCountry(token) != ""
  {
  }

  /** A determined destination is a word. */
  lemma DestinationNonEmpty(q: string)
    ensures Destination(q).Some? ==> Destination(q).value != ""
  {
    var d := DestinationPatterns;
    assert d == [d[0], d[1], d[2], d[3], d[4], d[5], d[6], d[7], d[8]];
    CapturePatternsYieldWords(q, d[0], d[1], d[2], d[3], d[4], d[5], d[6], d[7], d[8]);
  }

  /** The shape step of `DestinationNonEmpty`: a list of nine capturing patterns yields a word, if anything. */
  lemma CapturePatternsYieldWords(q: string, d0: Pattern, d1: Pattern, d2: Pattern, d3: Pattern, d4: Pattern,
                                  d5: Pattern, d6: Pattern, d7: Pattern, d8: Pattern)
    requires d0.Capture? && d1.Capture? && d2.Capture? && d3.LazyCapture? && d4.Capture?
    requires d5.Capture? && d6.Capture? && d7.Capture? && d8.Capture?
    ensures var c := FirstCapture(q, [d0, d1, d2, d3, d4, d5, d6, d7, d8]); c.Some? ==> IsWord(c.value)
  {
    FirstCaptureIsWord(q, [d0, d1, d2, d3, d4, d5, d6, d7, d8]);
  }

  /** A determined passport country is the non-empty alias or token. */
  lemma PassportCountryNonEmpty(q: string)
    ensures PassportCountry(q).Some? ==> PassportCountry(q).value != ""
  {
    FirstCaptureIsWord(q, PassportPatterns);
    var t := FirstCapture(q, PassportPatterns);
    if t.Some? {
      NormalizeCountryOfWord(t.value);
    }
  }

  /** A determined travel date is a month name, so not empty. */
  lemma TravelDateNonEmpty(q: string)
    ensures TravelDate(q).Some? ==> TravelDate(q).value != ""
  {
    TravelDateIsMonth(q);
  }

  /** A determined purpose is a keyword, so not empty. */
  lemma PurposeNonEmpty(q: string)
    ensures Purpose(q).Some? ==> Purpose(q).value != ""
  {
    PurposeInVocabulary(q);
  }

  /**
   * `extract_query_data` succeeds exactly when all four fields are determined,
   * returns them unchanged, never returns an empty field, and otherwise fails
   * with the 400 "Invalid query format" error.
   */
  lemma ExtractOutcome(q: string)
    ensures Extract(q).Success? <==>
      Destination(q).Some? && PassportCountry(q).Some? && TravelDate(q).Some? && Purpose(q).Some?
    ensures Extract(q).Success? ==>
      Extract(q).value ==
        QueryFields(Destination(q).value, PassportCountry(q).value, TravelDate(q).value, Purpose(q).value)
    ensures Extract(q).Success? ==>
      var r := Extract(q).value;
      r.destination != "" && r.passportCountry != "" && r.travelDate != "" && r.purpose != ""
    ensures Extract(q).Failure? ==> Extract(q).error == HttpException(400, "Invalid query format")
  {
    DestinationNonEmpty(q);
    PassportCountryNonEmpty(q);
    TravelDateNonEmpty(q);
    PurposeNonEmpty(q);
  }

  /**
   * Every capture pattern of the destination, passport and date tables ends its
   * word at a `\W` literal or at nothing, so for each of them the longest-run
   * match is the one a backtracking engine finds.
   */
  lemma TablesMatchBacktracking(q: string, i: nat, p: Pattern, head: string)
    requires p in DestinationPatterns || p in PassportPatterns || p in DatePatterns
    requires p.Capture?
    ensures ArmAt(q, i, head, p.tail) == BacktrackingArmAt(q, i, head, p.tail)
  {
    assert p.tail == [] || p.tail[0] == Lit(' ');
    ArmAtIsBacktracking(q, i, head, p.tail);
  }
}
