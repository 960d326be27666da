/**
 * What the page shows for its own project list: the tag buttons, the projects
 * for the `cad` button, and the projects for the queries `rover` and
 * `zzz-no-match`.
 */
module Scenarios {
  import opened JsString
  import opened Absence
  import opened TagOrder
  import opened JsArray
  import opened Projects
  import opened TextFacts
  import opened ProjectFilter

  // ---------------------------------------------------------------------------
  // Lowercased tags of each project
  // ---------------------------------------------------------------------------

  lemma NssTags()
    ensures LowerTags(NSS_SETTLEMENT) == ["blender", "cad", "space systems"]
  {
    var t := NSS_SETTLEMENT.tech;
    assert Lower(t[0]) == "blender";
    assert Lower(t[1]) == "cad";
    assert Lower(t[2]) == "space systems";
  }

  lemma RoverexTags()
    ensures LowerTags(ROVEREX) == ["arduino", "raspberry pi", "c", "python", "react"]
  {
    var t := ROVEREX.tech;
    assert Lower(t[0]) == "arduino";
    assert Lower(t[1]) == "raspberry pi";
    assert Lower(t[2]) == "c";
    assert Lower(t[3]) == "python";
    assert Lower(t[4]) == "react";
  }

  lemma MoonCampTags()
    ensures LowerTags(MOON_CAMP) == ["blender", "fusion 360", "cad"]
  {
    var t := MOON_CAMP.tech;
    assert Lower(t[0]) == "blender";
    assert Lower(t[1]) == "fusion 360";
    assert Lower(t[2]) == "cad";
  }

  lemma FestivalTags()
    ensures LowerTags(SCIENCE_FESTIVAL) == ["stem outreach", "communication"]
  {
    var t := SCIENCE_FESTIVAL.tech;
    assert Lower(t[0]) == "stem outreach";
    assert Lower(t[1]) == "communication";
  }

  lemma MovTags()
    ensures LowerTags(MOV) == ["mentoring", "education"]
  {
    var t := MOV.tech;
    assert Lower(t[0]) == "mentoring";
    assert Lower(t[1]) == "education";
  }

  lemma KaiaTags()
    ensures LowerTags(KAIA) == ["leadership"]
  {
    var t := KAIA.tech;
    assert Lower(t[0]) == "leadership";
  }

  // ---------------------------------------------------------------------------
  // The tag buttons
  // ---------------------------------------------------------------------------

  /** The labels of the tag buttons, in the order the page shows them (written in two halves). */
  const TAG_BUTTONS: seq<string> :=
    ["arduino", "blender", "c", "cad", "communication", "education", "fusion 360"]
    + ["leadership", "mentoring", "python", "raspberry pi", "react", "space systems", "stem outreach"]

  /** The first seven labels are in sort order. */
  lemma FirstTagsInOrder()
    ensures StrictlySorted(["arduino", "blender", "c", "cad", "communication", "education", "fusion 360"])
  {
    var t := ["arduino", "blender", "c", "cad", "communication", "education", "fusion 360"];
    assert Below(t[0], t[1]);
    assert Below(t[1], t[2]);
    assert Below(t[2], t[3]);
    assert Below(t[3], t[4]);
    assert Below(t[4], t[5]);
    assert Below(t[5], t[6]);
    AdjacentBelowIsStrictlySorted(t);
  }

  /** The last seven labels are in sort order. */
  lemma LastTagsInOrder()
    ensures StrictlySorted(["leadership", "mentoring", "python", "raspberry pi", "react", "space systems", "stem outreach"])
  {
    var t := ["leadership", "mentoring", "python", "raspberry pi", "react", "space systems", "stem outreach"];
    assert Below(t[0], t[1]);
    assert Below(t[1], t[2]);
    assert Below(t[2], t[3]);
    assert Below(t[3], t[4]);
    assert Below(t[4], t[5]);
    assert Below(t[5], t[6]);
    AdjacentBelowIsStrictlySorted(t);
  }

  lemma TagButtonsInOrder()
    ensures StrictlySorted(TAG_BUTTONS)
  {
    FirstTagsInOrder();
    LastTagsInOrder();
    StrictlySortedAppend(["arduino", "blender", "c", "cad", "communication", "education", "fusion 360"], ["leadership", "mentoring", "python", "raspberry pi", "react", "space systems", "stem outreach"]);
  }

  /** A tag occurs among the flattened tags of a six-project list exactly when one of the six carries it. */
  lemma FlatTagsOfSix(ps: seq<Project>, x: string)
    requires |ps| == 6
    ensures x in FlatTags(ps) <==>
      x in LowerTags(ps[0]) || x in LowerTags(ps[1]) || x in LowerTags(ps[2])
      || x in LowerTags(ps[3]) || x in LowerTags(ps[4]) || x in LowerTags(ps[5])
  {
    assert FlatTags(ps) == LowerTags(ps[0]) + FlatTags(ps[1..]);
    assert FlatTags(ps[1..]) == LowerTags(ps[1]) + FlatTags(ps[2..]) by {
      assert ps[1..][0] == ps[1] && ps[1..][1..] == ps[2..];
    }
    assert FlatTags(ps[2..]) == LowerTags(ps[2]) + FlatTags(ps[3..]) by {
      assert ps[2..][0] == ps[2] && ps[2..][1..] == ps[3..];
    }
    assert FlatTags(ps[3..]) == LowerTags(ps[3]) + FlatTags(ps[4..]) by {
      assert ps[3..][0] == ps[3] && ps[3..][1..] == ps[4..];
    }
    assert FlatTags(ps[4..]) == LowerTags(ps[4]) + FlatTags(ps[5..]) by {
      assert ps[4..][0] == ps[4] && ps[4..][1..] == ps[5..];
    }
    assert FlatTags(ps[5..]) == LowerTags(ps[5]) by {
      assert ps[5..][0] == ps[5] && ps[5..][1..] == [];
    }
  }

  lemma NssTagsHaveButtons()
    ensures forall x :: x in LowerTags(NSS_SETTLEMENT) ==> x in TAG_BUTTONS
  {
    NssTags();
  }

  lemma RoverexTagsHaveButtons()
    ensures forall x :: x in LowerTags(ROVEREX) ==> x in TAG_BUTTONS
  {
    RoverexTags();
  }

  lemma MoonCampTagsHaveButtons()
    ensures forall x :: x in LowerTags(MOON_CAMP) ==> x in TAG_BUTTONS
  {
    MoonCampTags();
  }

  lemma FestivalTagsHaveButtons()
    ensures forall x :: x in LowerTags(SCIENCE_FESTIVAL) ==> x in TAG_BUTTONS
  {
    FestivalTags();
  }

  lemma MovTagsHaveButtons()
    ensures forall x :: x in LowerTags(MOV) ==> x in TAG_BUTTONS
  {
    MovTags();
  }

  lemma KaiaTagsHaveButtons()
    ensures forall x :: x in LowerTags(KAIA) ==> x in TAG_BUTTONS
  {
    KaiaTags();
  }

  /** Every tag button label is a tag of one of the six projects. */
  lemma ButtonsHaveTags(x: string)
    requires x in TAG_BUTTONS
    ensures x in LowerTags(NSS_SETTLEMENT) || x in LowerTags(ROVEREX) || x in LowerTags(MOON_CAMP)
      || x in LowerTags(SCIENCE_FESTIVAL) || x in LowerTags(MOV) || x in LowerTags(KAIA)
  {
    NssTags();
    RoverexTags();
    MoonCampTags();
    FestivalTags();
    MovTags();
    KaiaTags();
  }

  /** A string is a tag of one of the six projects exactly when it labels a tag button. */
  lemma TagOfProjects(x: string)
    ensures x in FlatTags(PROJECTS) <==> x in TAG_BUTTONS
  {
    FlatTagsOfSix(PROJECTS, x);
    NssTagsHaveButtons();
    RoverexTagsHaveButtons();
    MoonCampTagsHaveButtons();
    FestivalTagsHaveButtons();
    MovTagsHaveButtons();
    KaiaTagsHaveButtons();
    if x in TAG_BUTTONS {
      ButtonsHaveTags(x);
    }
  }

  /** The tag buttons are the lowercased tags of the six projects, each once, sorted: `c` before `cad`, `raspberry pi` before `react`. */
  lemma AllTagsOfProjects()
    ensures AllTags(PROJECTS) == TAG_BUTTONS
  {
    forall x ensures x in TAG_BUTTONS <==> x in FlatTags(PROJECTS) {
      TagOfProjects(x);
    }
    TagButtonsInOrder();
    AllTagsUnique(PROJECTS, TAG_BUTTONS);
  }

  // ---------------------------------------------------------------------------
  // Filtering the six projects
  // ---------------------------------------------------------------------------

  /** Filtering a list is filtering its head on its own, then its tail. */
  lemma FilterOfCons(ps: seq<Project>, keep: Project -> bool)
    requires ps != []
    ensures Filter(ps, keep) == Filter([ps[0]], keep) + Filter(ps[1..], keep)
  {
    FilterAppend([ps[0]], ps[1..], keep);
    assert [ps[0]] + ps[1..] == ps;
  }

  /** Filtering a six-project list is filtering each project on its own. */
  lemma FilterOfSix(ps: seq<Project>, keep: Project -> bool)
    requires |ps| == 6
    ensures Filter(ps, keep) == Filter([ps[0]], keep) + (Filter([ps[1]], keep) + (Filter([ps[2]], keep)
      + (Filter([ps[3]], keep) + (Filter([ps[4]], keep) + Filter([ps[5]], keep)))))
  {
    FilterOfCons(ps, keep);
    FilterOfCons(ps[1..], keep);
    FilterOfCons(ps[2..], keep);
    FilterOfCons(ps[3..], keep);
    FilterOfCons(ps[4..], keep);
    assert ps[1..][0] == ps[1] && ps[1..][1..] == ps[2..];
    assert ps[2..][0] == ps[2] && ps[2..][1..] == ps[3..];
    assert ps[3..][0] == ps[3] && ps[3..][1..] == ps[4..];
    assert ps[4..][0] == ps[4] && ps[4..][1..] == ps[5..];
    assert |ps[5..]| == 1 && ps[5..][0] == ps[5];
    assert ps[5..] == [ps[5]];
  }

  /** A one-project list passes the filter whole or not at all. */
  lemma FilterOfOne(p: Project, keep: Project -> bool)
    ensures Filter([p], keep) == if keep(p) then [p] else []
  {
    assert [p][1..] == [];
  }

  // ---------------------------------------------------------------------------
  // Which projects the probe terms can match
  // ---------------------------------------------------------------------------

  /** A project whose fields and the separator are clean for `t` matches no term containing `t`. */
  lemma SearchTextClean(p: Project, t: string)
    requires Clean(p.title, t) && Clean(p.summary, t) && Clean(" ", t)
    requires forall k :: 0 <= k < |p.tech| ==> Clean(p.tech[k], t)
    ensures forall term :: IsInfix(t, term) ==> !IsInfix(term, SearchText(p))
  {
    var parts := [p.title, p.summary] + p.tech;
    forall k | 0 <= k < |parts| ensures Clean(parts[k], t) {
      if k >= 2 {
        assert parts[k] == p.tech[k - 2];
      }
    }
    CleanJoin(parts, " ", t);
    forall term | IsInfix(t, term) ensures !IsInfix(term, SearchText(p)) {
      CleanExcludes(Join(parts, " "), t, term);
    }
  }

  /** The separator `join(" ")` puts between the fields is clean for both probes. */
  lemma SpaceClean()
    ensures Clean(" ", VER) && Clean(" ", ZZZ)
  {
    PlainClean(" ");
  }

  /** No search term containing `ver` or `zzz` matches the NSS_SETTLEMENT entry. */
  lemma NssMatchesNoProbe()
    ensures forall term :: IsInfix(VER, term) ==> !IsInfix(term, SearchText(NSS_SETTLEMENT))
    ensures forall term :: IsInfix(ZZZ, term) ==> !IsInfix(term, SearchText(NSS_SETTLEMENT))
  {
    NssTitleClean();
    NssSummaryClean();
    NssTechPlain();
    SpaceClean();
    forall k | 0 <= k < |NSS_SETTLEMENT.tech| ensures Clean(NSS_SETTLEMENT.tech[k], VER) && Clean(NSS_SETTLEMENT.tech[k], ZZZ) {
      PlainClean(NSS_SETTLEMENT.tech[k]);
    }
    SearchTextClean(NSS_SETTLEMENT, VER);
    SearchTextClean(NSS_SETTLEMENT, ZZZ);
  }

  /** No search term containing `zzz` matches the ROVEREX entry. */
  lemma RoverexMatchesNoProbe()
    ensures forall term :: IsInfix(ZZZ, term) ==> !IsInfix(term, SearchText(ROVEREX))
  {
    RoverexTitleClean();
    RoverexSummaryClean();
    RoverexTechPlain();
    SpaceClean();
    forall k | 0 <= k < |ROVEREX.tech| ensures Clean(ROVEREX.tech[k], VER) && Clean(ROVEREX.tech[k], ZZZ) {
      PlainClean(ROVEREX.tech[k]);
    }
    SearchTextClean(ROVEREX, ZZZ);
  }

  /** No search term containing `ver` or `zzz` matches the MOON_CAMP entry. */
  lemma MoonCampMatchesNoProbe()
    ensures forall term :: IsInfix(VER, term) ==> !IsInfix(term, SearchText(MOON_CAMP))
    ensures forall term :: IsInfix(ZZZ, term) ==> !IsInfix(term, SearchText(MOON_CAMP))
  {
    MoonCampTitleClean();
    MoonCampSummaryClean();
    MoonCampTechPlain();
    SpaceClean();
    forall k | 0 <= k < |MOON_CAMP.tech| ensures Clean(MOON_CAMP.tech[k], VER) && Clean(MOON_CAMP.tech[k], ZZZ) {
      PlainClean(MOON_CAMP.tech[k]);
    }
    SearchTextClean(MOON_CAMP, VER);
    SearchTextClean(MOON_CAMP, ZZZ);
  }

  /** No search term containing `ver` or `zzz` matches the SCIENCE_FESTIVAL entry. */
  lemma FestivalMatchesNoProbe()
    ensures forall term :: IsInfix(VER, term) ==> !IsInfix(term, SearchText(SCIENCE_FESTIVAL))
    ensures forall term :: IsInfix(ZZZ, term) ==> !IsInfix(term, SearchText(SCIENCE_FESTIVAL))
  {
    FestivalTitleClean();
    FestivalSummaryClean();
    FestivalTechPlain();
    SpaceClean();
    forall k | 0 <= k < |SCIENCE_FESTIVAL.tech| ensures Clean(SCIENCE_FESTIVAL.tech[k], VER) && Clean(SCIENCE_FESTIVAL.tech[k], ZZZ) {
      PlainClean(SCIENCE_FESTIVAL.tech[k]);
    }
    SearchTextClean(SCIENCE_FESTIVAL, VER);
    SearchTextClean(SCIENCE_FESTIVAL, ZZZ);
  }

  /** No search term containing `ver` or `zzz` matches the MOV entry. */
  lemma MovMatchesNoProbe()
    ensures forall term :: IsInfix(VER, term) ==> !IsInfix(term, SearchText(MOV))
    ensures forall term :: IsInfix(ZZZ, term) ==> !IsInfix(term, SearchText(MOV))
  {
    MovTitleClean();
    MovSummaryClean();
    MovTechPlain();
    SpaceClean();
    forall k | 0 <= k < |MOV.tech| ensures Clean(MOV.tech[k], VER) && Clean(MOV.tech[k], ZZZ) {
      PlainClean(MOV.tech[k]);
    }
    SearchTextClean(MOV, VER);
    SearchTextClean(MOV, ZZZ);
  }

  /** No search term containing `ver` or `zzz` matches the KAIA entry. */
  lemma KaiaMatchesNoProbe()
    ensures forall term :: IsInfix(VER, term) ==> !IsInfix(term, SearchText(KAIA))
    ensures forall term :: IsInfix(ZZZ, term) ==> !IsInfix(term, SearchText(KAIA))
  {
    KaiaTitleClean();
    KaiaSummaryClean();
    KaiaTechPlain();
    SpaceClean();
    forall k | 0 <= k < |KAIA.tech| ensures Clean(KAIA.tech[k], VER) && Clean(KAIA.tech[k], ZZZ) {
      PlainClean(KAIA.tech[k]);
    }
    SearchTextClean(KAIA, VER);
    SearchTextClean(KAIA, ZZZ);
  }

  // ---------------------------------------------------------------------------
  // The three scenarios
  // ---------------------------------------------------------------------------

  lemma TermOfRover()
    ensures Term("rover") == "rover"
  {
    TrimOfTrimmed("rover");
    LowerOfLowerCase("rover");
  }

  lemma TermOfNoMatch()
    ensures Term("zzz-no-match") == "zzz-no-match"
  {
    TrimOfTrimmed("zzz-no-match");
    LowerOfLowerCase("zzz-no-match");
  }

  /** The RoverEx title starts with `RoverEx`, so its search text contains `rover`. */
  lemma RoverexMentionsRover()
    ensures IsInfix("rover", SearchText(ROVEREX))
  {
    var text := Lower(ROVEREX.title);
    assert text[0..5] == "rover";
    assert OccursAt("rover", text, 0);
    InfixTransitive("rover", text, SearchText(ROVEREX));
  }

  /** Filtering the six-project list is filtering each project on its own. */
  lemma FilteredOfSix(ps: seq<Project>, q: string, tag: string)
    requires |ps| == 6
    ensures Filtered(ps, q, tag) == Filtered([ps[0]], q, tag) + (Filtered([ps[1]], q, tag) + (Filtered([ps[2]], q, tag)
      + (Filtered([ps[3]], q, tag) + (Filtered([ps[4]], q, tag) + Filtered([ps[5]], q, tag)))))
  {
    FilterOfSix(ps, p => Keeps(p, Term(q), tag));
  }

  /** Six per-project results of which only the first and third are non-empty. */
  lemma FirstAndThird(a: Project, c: Project)
    ensures [a] + ([] + ([c] + ([] + ([] + [])))) == [a, c]
  {
  }

  /** Six per-project results of which only the second is non-empty. */
  lemma OnlySecond(b: Project)
    ensures [] + ([b] + ([] + ([] + ([] + [])))) == [b]
  {
  }

  lemma BlankTerm()
    ensures Term("") == []
  {
    assert IsBlank("");
  }

  lemma RoverContainsVer()
    ensures IsInfix(VER, "rover")
  {
    assert OccursAt(VER, "rover", 2);
  }

  lemma NoMatchContainsZzz()
    ensures IsInfix(ZZZ, "zzz-no-match")
  {
    assert OccursAt(ZZZ, "zzz-no-match", 0);
  }

  lemma NssForCad()
    ensures Filtered([NSS_SETTLEMENT], "", "cad") == [NSS_SETTLEMENT]
  {
    BlankTerm();
    NssTags();
    FilterOfOne(NSS_SETTLEMENT, p => Keeps(p, Term(""), "cad"));
  }

  lemma RoverexForCad()
    ensures Filtered([ROVEREX], "", "cad") == []
  {
    BlankTerm();
    RoverexTags();
    FilterOfOne(ROVEREX, p => Keeps(p, Term(""), "cad"));
  }

  lemma MoonCampForCad()
    ensures Filtered([MOON_CAMP], "", "cad") == [MOON_CAMP]
  {
    BlankTerm();
    MoonCampTags();
    FilterOfOne(MOON_CAMP, p => Keeps(p, Term(""), "cad"));
  }

  lemma FestivalForCad()
    ensures Filtered([SCIENCE_FESTIVAL], "", "cad") == []
  {
    BlankTerm();
    FestivalTags();
    FilterOfOne(SCIENCE_FESTIVAL, p => Keeps(p, Term(""), "cad"));
  }

  lemma MovForCad()
    ensures Filtered([MOV], "", "cad") == []
  {
    BlankTerm();
    MovTags();
    FilterOfOne(MOV, p => Keeps(p, Term(""), "cad"));
  }

  lemma KaiaForCad()
    ensures Filtered([KAIA], "", "cad") == []
  {
    BlankTerm();
    KaiaTags();
    FilterOfOne(KAIA, p => Keeps(p, Term(""), "cad"));
  }

  lemma NssForRover()
    ensures Filtered([NSS_SETTLEMENT], "rover", "") == []
  {
    TermOfRover();
    RoverContainsVer();
    NssMatchesNoProbe();
    FilterOfOne(NSS_SETTLEMENT, p => Keeps(p, Term("rover"), ""));
  }

  lemma RoverexForRover()
    ensures Filtered([ROVEREX], "rover", "") == [ROVEREX]
  {
    TermOfRover();
    RoverexMentionsRover();
    FilterOfOne(ROVEREX, p => Keeps(p, Term("rover"), ""));
  }

  lemma MoonCampForRover()
    ensures Filtered([MOON_CAMP], "rover", "") == []
  {
    TermOfRover();
    RoverContainsVer();
    MoonCampMatchesNoProbe();
    FilterOfOne(MOON_CAMP, p => Keeps(p, Term("rover"), ""));
  }

  lemma FestivalForRover()
    ensures Filtered([SCIENCE_FESTIVAL], "rover", "") == []
  {
    TermOfRover();
    RoverContainsVer();
    FestivalMatchesNoProbe();
    FilterOfOne(SCIENCE_FESTIVAL, p => Keeps(p, Term("rover"), ""));
  }

  lemma MovForRover()
    ensures Filtered([MOV], "rover", "") == []
  {
    TermOfRover();
    RoverContainsVer();
    MovMatchesNoProbe();
    FilterOfOne(MOV, p => Keeps(p, Term("rover"), ""));
  }

  lemma KaiaForRover()
    ensures Filtered([KAIA], "rover", "") == []
  {
    TermOfRover();
    RoverContainsVer();
    KaiaMatchesNoProbe();
    FilterOfOne(KAIA, p => Keeps(p, Term("rover"), ""));
  }

  lemma NssForNoMatch()
    ensures Filtered([NSS_SETTLEMENT], "zzz-no-match", "") == []
  {
    TermOfNoMatch();
    NoMatchContainsZzz();
    NssMatchesNoProbe();
    FilterOfOne(NSS_SETTLEMENT, p => Keeps(p, Term("zzz-no-match"), ""));
  }

  lemma RoverexForNoMatch()
    ensures Filtered([ROVEREX], "zzz-no-match", "") == []
  {
    TermOfNoMatch();
    NoMatchContainsZzz();
    RoverexMatchesNoProbe();
    FilterOfOne(ROVEREX, p => Keeps(p, Term("zzz-no-match"), ""));
  }

  lemma MoonCampForNoMatch()
    ensures Filtered([MOON_CAMP], "zzz-no-match", "") == []
  {
    TermOfNoMatch();
    NoMatchContainsZzz();
    MoonCampMatchesNoProbe();
    FilterOfOne(MOON_CAMP, p => Keeps(p, Term("zzz-no-match"), ""));
  }

  lemma FestivalForNoMatch()
    ensures Filtered([SCIENCE_FESTIVAL], "zzz-no-match", "") == []
  {
    TermOfNoMatch();
    NoMatchContainsZzz();
    FestivalMatchesNoProbe();
    FilterOfOne(SCIENCE_FESTIVAL, p => Keeps(p, Term("zzz-no-match"), ""));
  }

  lemma MovForNoMatch()
    ensures Filtered([MOV], "zzz-no-match", "") == []
  {
    TermOfNoMatch();
    NoMatchContainsZzz();
    MovMatchesNoProbe();
    FilterOfOne(MOV, p => Keeps(p, Term("zzz-no-match"), ""));
  }

  lemma KaiaForNoMatch()
    ensures Filtered([KAIA], "zzz-no-match", "") == []
  {
    TermOfNoMatch();
    NoMatchContainsZzz();
    KaiaMatchesNoProbe();
    FilterOfOne(KAIA, p => Keeps(p, Term("zzz-no-match"), ""));
  }

  /** Pressing the `cad` button with an empty search box shows the NSS settlement and the Moon Camp entries. */
  lemma CadButtonShows()
    ensures Filtered(PROJECTS, "", "cad") == [NSS_SETTLEMENT, MOON_CAMP]
  {
    FilteredOfSix(PROJECTS, "", "cad");
    NssForCad();
    RoverexForCad();
    MoonCampForCad();
    FestivalForCad();
    MovForCad();
    KaiaForCad();
    FirstAndThird(NSS_SETTLEMENT, MOON_CAMP);
  }

  /** Searching for `rover` with no tag selected shows only the RoverEx entry. */
  lemma RoverQueryShows()
    ensures Filtered(PROJECTS, "rover", "") == [ROVEREX]
  {
    FilteredOfSix(PROJECTS, "rover", "");
    NssForRover();
    RoverexForRover();
    MoonCampForRover();
    FestivalForRover();
    MovForRover();
    KaiaForRover();
    OnlySecond(ROVEREX);
  }

  /** Searching for `zzz-no-match` shows no project at all. */
  lemma NoMatchQueryShowsNothing()
    ensures Filtered(PROJECTS, "zzz-no-match", "") == []
  {
    FilteredOfSix(PROJECTS, "zzz-no-match", "");
    NssForNoMatch();
    RoverexForNoMatch();
    MoonCampForNoMatch();
    FestivalForNoMatch();
    MovForNoMatch();
    KaiaForNoMatch();
  }
}
