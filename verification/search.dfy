/**
 * The portfolio's two search boxes: the project list filtered by a query
 * matched against titles and tags, and the certification list filtered by
 * a query matched against titles, organisations and years. Both are pure
 * functions of the query over compiled-in lists; the lists themselves are
 * values and are never changed.
 */
module Search {
  import opened Text
  import opened Collections

  datatype Project = Project(title: string, tags: seq<string>, blurb: string, link: string)

  datatype Certification = Certification(title: string, org: string, year: int)

  const Projects: seq<Project> := [
    Project("Loan Performance Analysis", ["SQL", "Python", "Power BI"],
      "Analyzed loan portfolios to identify delinquency patterns and optimized risk metrics; interactive KPI dashboards.", "#"),
    Project("Branch-wise Profit & Loss Prediction Dashboard", ["Forecasting", "Python", "Power BI"],
      "Predictive modeling for P&L with feature-engineered macro & seasonal signals; deployed for management review.", "#"),
    Project("Clean Cash Analysis", ["ETL", "SQL", "Excel"],
      "Automated ingestion and reconciliation workflows to flag anomalies in cash cycles.", "#"),
    Project("Zone-wise Sales Forecasting", ["Time Series", "Python", "Streamlit"],
      "ARIMA/Prophet-based forecasts with what-if analysis embedded into a Streamlit app.", "#"),
    Project("Customer Review Sentiment Analysis (Food Shop)", ["NLP", "HuggingFace", "LangChain"],
      "Fine-tuned transformers for sentiment trends and aspect mining from multi-source reviews.", "#"),
    Project("Bulk Email Automation with AI", ["Generative AI", "FastAPI", "LangChain"],
      "Context-aware email generation & scheduling; integrated vector search using Pinecone.", "#"),
    Project("Email Data Analytics (Response Time & Trends)", ["Analytics", "Python", "Dashboards"],
      "Response time SLAs & trend analytics with anomaly detection and executive summaries.", "#")
  ]

  const Certifications: seq<Certification> := [
    Certification("Advanced Power BI Custom Visuals with d3.js", "LinkedIn", 2023),
    Certification("Python for Data Science & ML", "LinkedIn", 2022),
    Certification("SQL Data Reporting & Analysis", "LinkedIn", 2021),
    Certification("Career Essentials in Data Analysis", "Microsoft", 2024)
  ]

  /**
   * The page renders the projects keyed by title and each project's badges
   * keyed by tag, so both must be unique: seven projects with distinct
   * titles, each carrying three distinct tags.
   */
  lemma ProjectKeysDistinct()
    ensures |Projects| == 7
    ensures forall i, j :: 0 <= i < j < |Projects| ==> Projects[i].title != Projects[j].title
    ensures forall k :: 0 <= k < |Projects| ==> |Projects[k].tags| == 3
    ensures forall k, i, j :: 0 <= k < |Projects| && 0 <= i < j < |Projects[k].tags| ==>
      Projects[k].tags[i] != Projects[k].tags[j]
  {
  }

  /** Four certifications with distinct titles, one per year from 2021 to 2024. */
  lemma CertificationsData()
    ensures |Certifications| == 4
    ensures forall i, j :: 0 <= i < j < |Certifications| ==> Certifications[i].title != Certifications[j].title
    ensures forall k :: 0 <= k < |Certifications| ==> 2021 <= Certifications[k].year <= 2024
    ensures forall i, j :: 0 <= i < j < |Certifications| ==> Certifications[i].year != Certifications[j].year
  {
  }

  // ---------------------------------------------------------------------
  // Projects
  // ---------------------------------------------------------------------

  /** The lower-cased query occurs in the lower-cased field. */
  predicate FieldMatches(query: string, field: string): (r: bool)
    ensures r ==> |query| <= |field|
    ensures query == "" ==> r
  {
    Includes(LowerStr(field), LowerStr(query))
  }

  /** Upper- and lower-case letters are interchangeable on both sides of a match. */
  lemma FieldMatchesIgnoresCase(query: string, field: string)
    ensures FieldMatches(query, field) <==> FieldMatches(LowerStr(query), field)
    ensures FieldMatches(query, field) <==> FieldMatches(query, LowerStr(field))
  {
    LowerStrIdempotent(query);
    LowerStrIdempotent(field);
  }

  /** The test applied to each project: its title or one of its tags matches. */
  predicate ProjectMatches(query: string, p: Project): (r: bool)
    ensures r <==> FieldMatches(query, p.title) || exists i :: 0 <= i < |p.tags| && FieldMatches(query, p.tags[i])
    ensures query == "" ==> r
  {
    FieldMatches(query, p.title) || Any(p.tags, FieldTest(query))
  }

  function FieldTest(query: string): string -> bool
  {
    field => FieldMatches(query, field)
  }

  /** `filteredProjects` for the query typed into the project search box. */
  function FilteredProjects(query: string, projects: seq<Project>): (r: seq<Project>)
    ensures |r| <= |projects|
    ensures forall i :: 0 <= i < |r| ==> r[i] in projects && ProjectMatches(query, r[i])
  {
    Filter(projects, ProjectTest(query))
  }

  function ProjectTest(query: string): Project -> bool
  {
    p => ProjectMatches(query, p)
  }

  /** A project is listed exactly when it is a source project whose title or some tag matches. */
  lemma FilteredProjectsMembership(query: string, projects: seq<Project>, p: Project)
    ensures p in FilteredProjects(query, projects) <==>
      p in projects &&
      (FieldMatches(query, p.title) || exists i :: 0 <= i < |p.tags| && FieldMatches(query, p.tags[i]))
  {
    FilterMembership(projects, ProjectTest(query), p);
  }

  /** The listed projects appear in the source list, in the source order. */
  lemma FilteredProjectsOrder(query: string, projects: seq<Project>)
    ensures IsSubsequence(FilteredProjects(query, projects), projects)
  {
    FilterIsSubsequence(projects, ProjectTest(query));
  }

  /** An empty search box lists every project, in order. */
  lemma FilteredProjectsEmptyQuery(projects: seq<Project>)
    ensures FilteredProjects("", projects) == projects
  {
    FilterKeepsAll(projects, ProjectTest(""));
  }

  /** Searching the already filtered list again with the same query changes nothing. */
  lemma FilteredProjectsIdempotent(query: string, projects: seq<Project>)
    ensures FilteredProjects(query, FilteredProjects(query, projects)) == FilteredProjects(query, projects)
  {
    FilterIdempotent(projects, ProjectTest(query));
  }

  // ---------------------------------------------------------------------
  // Certifications
  // ---------------------------------------------------------------------

  /**
   * The test applied to each certification: the lower-cased query occurs in
   * the lower-cased title or organisation, or the query as typed occurs in
   * the year's decimal rendering.
   */
  predicate CertMatches(query: string, c: Certification): (r: bool)
    ensures r <==> FieldMatches(query, c.title) || FieldMatches(query, c.org) || FieldMatches(query, IntToDecimal(c.year))
    ensures query == "" ==> r
  {
    YearMatchIsCaseInsensitive(query, c.year);
    FieldMatches(query, c.title) || FieldMatches(query, c.org) || Includes(IntToDecimal(c.year), query)
  }

  /** `filteredCerts` for the query typed into the certification search box. */
  function FilteredCerts(query: string, certs: seq<Certification>): (r: seq<Certification>)
    ensures |r| <= |certs|
    ensures forall i :: 0 <= i < |r| ==> r[i] in certs && CertMatches(query, r[i])
  {
    Filter(certs, CertTest(query))
  }

  function CertTest(query: string): Certification -> bool
  {
    c => CertMatches(query, c)
  }

  /** A certification is listed exactly when it is a source entry whose title, organisation or year matches. */
  lemma FilteredCertsMembership(query: string, certs: seq<Certification>, c: Certification)
    ensures c in FilteredCerts(query, certs) <==>
      c in certs &&
      (Includes(LowerStr(c.title), LowerStr(query)) || Includes(LowerStr(c.org), LowerStr(query))
       || Includes(IntToDecimal(c.year), query))
  {
    FilterMembership(certs, CertTest(query), c);
  }

  /** The listed certifications appear in the source list, in the source order. */
  lemma FilteredCertsOrder(query: string, certs: seq<Certification>)
    ensures IsSubsequence(FilteredCerts(query, certs), certs)
  {
    FilterIsSubsequence(certs, CertTest(query));
  }

  /** An empty search box lists every certification, in order. */
  lemma FilteredCertsEmptyQuery(certs: seq<Certification>)
    ensures FilteredCerts("", certs) == certs
  {
    FilterKeepsAll(certs, CertTest(""));
  }

  /** Searching the already filtered list again with the same query changes nothing. */
  lemma FilteredCertsIdempotent(query: string, certs: seq<Certification>)
    ensures FilteredCerts(query, FilteredCerts(query, certs)) == FilteredCerts(query, certs)
  {
    FilterIdempotent(certs, CertTest(query));
  }

  /**
   * Matching the year against the query as typed is the same as matching it
   * against the lower-cased query: a year renders to digits and a sign only.
   * So the certification search is case-insensitive on every field.
   */
  lemma YearMatchIsCaseInsensitive(query: string, year: int)
    ensures Includes(IntToDecimal(year), query) <==> FieldMatches(query, IntToDecimal(year))
  {
    var d := IntToDecimal(year);
    LowerStrFixed(d);
    CaseFoldIrrelevant(d, query);
  }
}
