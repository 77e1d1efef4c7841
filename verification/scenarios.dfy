/**
 * The search filters applied to the portfolio's own lists: which projects
 * the query "python" lists, and which certification the query "2022" lists.
 *
 * The general lemmas of this module reduce a miss to a letter of the query
 * that the fields lack; each project or certification is then decided in a
 * lemma of its own, which keeps every proof small.
 */
module SearchScenarios {
  import opened Text
  import opened Collections
  import opened Search

  // ---------------------------------------------------------------------
  // General tools
  // ---------------------------------------------------------------------

  /** A field that lacks `c` in either case cannot match a query holding `c`. */
  lemma NoMatchWithout(query: string, field: string, c: char)
    requires !IsUpper(c) && c in query && Lacks(field, c)
    ensures !FieldMatches(query, field)
  {
    LowerStrAbsent(field, c);
    var i :| 0 <= i < |query| && query[i] == c;
    assert LowerStr(query)[i] == c;
    if Includes(LowerStr(field), LowerStr(query)) {
      IncludesChars(LowerStr(field), LowerStr(query), c);
    }
  }

  /**
   * When the first character of the query appears in neither case in `a`, a
   * match in `a + b` is a match in `b`.
   */
  lemma MatchInSuffix(query: string, c: char, a: string, b: string)
    requires query != [] && query[0] == c && !IsUpper(c) && Lacks(a, c)
    requires FieldMatches(query, a + b)
    ensures FieldMatches(query, b)
  {
    LowerStrAbsent(a, c);
    LowerStrAppend(a, b);
    assert LowerStr(query)[0] == c;
    IncludesSkip(LowerStr(a), LowerStr(b), LowerStr(query));
  }

  /** A project is listed when one of its tags matches. */
  lemma TagMatch(query: string, p: Project, j: nat)
    requires j < |p.tags| && FieldMatches(query, p.tags[j])
    ensures ProjectMatches(query, p)
  {
    assert FieldTest(query)(p.tags[j]);
  }

  /** No tag of `p` holds `c`, in either case, so none matches a query holding `c`. */
  lemma TagsMissWithout(query: string, p: Project, c: char)
    requires !IsUpper(c) && c in query
    requires forall j :: 0 <= j < |p.tags| ==> Lacks(p.tags[j], c)
    ensures forall j :: 0 <= j < |p.tags| ==> !FieldMatches(query, p.tags[j])
  {
    forall j | 0 <= j < |p.tags|
      ensures !FieldMatches(query, p.tags[j])
    {
      NoMatchWithout(query, p.tags[j], c);
    }
  }

  /** A project none of whose title and tags holds `c`, in either case, is not listed for a query holding `c`. */
  lemma ProjectMissWithout(query: string, p: Project, c: char)
    requires !IsUpper(c) && c in query && Lacks(p.title, c)
    requires forall j :: 0 <= j < |p.tags| ==> Lacks(p.tags[j], c)
    ensures !ProjectMatches(query, p)
  {
    NoMatchWithout(query, p.title, c);
    TagsMissWithout(query, p, c);
  }

  /** Filtering seven projects whose individual decisions are known. */
  lemma FilterSevenProjects(query: string, xs: seq<Project>)
    requires |xs| == 7
    requires ProjectMatches(query, xs[0]) && ProjectMatches(query, xs[1]) && ProjectMatches(query, xs[3])
    requires ProjectMatches(query, xs[6])
    requires !ProjectMatches(query, xs[2]) && !ProjectMatches(query, xs[4]) && !ProjectMatches(query, xs[5])
    ensures FilteredProjects(query, xs) == [xs[0], xs[1], xs[3], xs[6]]
  {
    var keep := ProjectTest(query);
    assert xs[0..] == xs && xs[7..] == [];
    FilterStep(xs, 0, keep);
    FilterStep(xs, 1, keep);
    FilterStep(xs, 2, keep);
    FilterStep(xs, 3, keep);
    FilterStep(xs, 4, keep);
    FilterStep(xs, 5, keep);
    FilterStep(xs, 6, keep);
  }

  /**
   * A certification whose title and organisation lack `ch`, in either case,
   * and whose year renders to a string the query does not occur in, is not
   * listed for a query holding `ch`.
   */
  lemma CertMissWithout(query: string, c: Certification, ch: char, year: string)
    requires !IsUpper(ch) && ch in query && Lacks(c.title, ch) && Lacks(c.org, ch)
    requires IntToDecimal(c.year) == year && !Includes(year, query)
    ensures !CertMatches(query, c)
  {
    NoMatchWithout(query, c.title, ch);
    NoMatchWithout(query, c.org, ch);
  }

  /** Filtering four certifications of which only the second matches. */
  lemma FilterFourCerts(query: string, xs: seq<Certification>)
    requires |xs| == 4 && CertMatches(query, xs[1])
    requires !CertMatches(query, xs[0]) && !CertMatches(query, xs[2]) && !CertMatches(query, xs[3])
    ensures FilteredCerts(query, xs) == [xs[1]]
  {
    var keep := CertTest(query);
    assert xs[0..] == xs && xs[4..] == [];
    FilterStep(xs, 0, keep);
    FilterStep(xs, 1, keep);
    FilterStep(xs, 2, keep);
    FilterStep(xs, 3, keep);
  }

  // ---------------------------------------------------------------------
  // The query "python" over the projects
  // ---------------------------------------------------------------------

  lemma PythonMatchesPython()
    ensures FieldMatches("python", "Python")
  {
    assert LowerStr("python") == "python" && LowerStr("Python") == "python";
  }

  lemma PythonMatches()
    ensures ProjectMatches("python", Projects[0])
    ensures ProjectMatches("python", Projects[1])
    ensures ProjectMatches("python", Projects[3])
    ensures ProjectMatches("python", Projects[6])
  {
    PythonMatchesPython();
    TagMatch("python", Projects[0], 1);
    TagMatch("python", Projects[1], 1);
    TagMatch("python", Projects[3], 1);
    TagMatch("python", Projects[6], 1);
  }

  lemma PythonMissesCleanCash()
    ensures !ProjectMatches("python", Projects[2])
  {
    ProjectMissWithout("python", Projects[2], 'p');
  }

  /** "python" cannot match a field whose only "p" or "P" ends it, followed by ")". */
  lemma PythonMissesBeforeShopEnd(a: string)
    requires Lacks(a, 'p')
    ensures !FieldMatches("python", a + "p)")
  {
    assert LowerStr("p)") == "p)";
    assert !FieldMatches("python", "p)");
    if FieldMatches("python", a + "p)") {
      MatchInSuffix("python", 'p', a, "p)");
      assert false;
    }
  }

  /** The sentiment project's title holds both "p" and "y"; its only "p" is the one in "Shop)". */
  lemma PythonMissesSentimentTitle()
    ensures !FieldMatches("python", "Customer Review Sentiment Analysis (Food Shop)")
  {
    assert "Customer Review Sentiment Analysis (Food Shop)" == "Customer Review Sentiment Analysis (Food Sho" + "p)";
    PythonMissesBeforeShopEnd("Customer Review Sentiment Analysis (Food Sho");
  }

  lemma PythonMissesSentimentTags()
    ensures forall j :: 0 <= j < |Projects[4].tags| ==> !FieldMatches("python", Projects[4].tags[j])
  {
    TagsMissWithout("python", Projects[4], 'y');
  }

  lemma PythonMissesSentiment()
    ensures !ProjectMatches("python", Projects[4])
  {
    PythonMissesSentimentTitle();
    PythonMissesSentimentTags();
  }

  lemma PythonMissesEmailAutomationTitle()
    ensures !FieldMatches("python", "Bulk Email Automation with AI")
  {
    NoMatchWithout("python", "Bulk Email Automation with AI", 'y');
  }

  lemma PythonMissesEmailAutomationTags()
    ensures forall j :: 0 <= j < |Projects[5].tags| ==> !FieldMatches("python", Projects[5].tags[j])
  {
    TagsMissWithout("python", Projects[5], 'y');
  }

  lemma PythonMissesEmailAutomation()
    ensures !ProjectMatches("python", Projects[5])
  {
    PythonMissesEmailAutomationTitle();
    PythonMissesEmailAutomationTags();
  }

  /**
   * Searching the projects for "python" lists Loan Performance, Branch-wise
   * P&L, Zone-wise Sales and Email Data Analytics, in that order.
   */
  lemma PythonScenario()
    ensures FilteredProjects("python", Projects) ==
      [Projects[0], Projects[1], Projects[3], Projects[6]]
  {
    PythonMatches();
    PythonMissesCleanCash();
    PythonMissesSentiment();
    PythonMissesEmailAutomation();
    FilterSevenProjects("python", Projects);
  }

  // ---------------------------------------------------------------------
  // The query "2022" over the certifications
  // ---------------------------------------------------------------------

  lemma Year2022Hits()
    ensures CertMatches("2022", Certifications[1])
  {
    assert IntToDecimal(2022) == "2022";
    assert Includes("2022", "2022");
  }

  lemma Renders2023()
    ensures IntToDecimal(2023) == "2023" && !Includes("2023", "2022")
  {
    assert "2023"[3] != "2022"[3];
  }

  lemma Renders2021()
    ensures IntToDecimal(2021) == "2021" && !Includes("2021", "2022")
  {
    assert "2021"[3] != "2022"[3];
  }

  lemma Renders2024()
    ensures IntToDecimal(2024) == "2024" && !Includes("2024", "2022")
  {
    assert "2024"[3] != "2022"[3];
  }

  lemma Year2022MissesAdvancedPowerBI()
    ensures !CertMatches("2022", Certifications[0])
  {
    Renders2023();
    CertMissWithout("2022", Certifications[0], '2', "2023");
  }

  lemma Year2022MissesSqlReporting()
    ensures !CertMatches("2022", Certifications[2])
  {
    Renders2021();
    CertMissWithout("2022", Certifications[2], '2', "2021");
  }

  lemma Year2022MissesCareerEssentials()
    ensures !CertMatches("2022", Certifications[3])
  {
    Renders2024();
    CertMissWithout("2022", Certifications[3], '2', "2024");
  }

  /** Searching the certifications for "2022" lists only "Python for Data Science & ML". */
  lemma Year2022Scenario()
    ensures FilteredCerts("2022", Certifications) == [Certifications[1]]
    ensures Certifications[1].title == "Python for Data Science & ML"
  {
    Year2022Hits();
    Year2022MissesAdvancedPowerBI();
    Year2022MissesSqlReporting();
    Year2022MissesCareerEssentials();
    FilterFourCerts("2022", Certifications);
  }
}
