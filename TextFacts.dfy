/**
 * Which of the two probe terms, `ver` and `zzz`, can occur in each project's
 * search text: neither can, except `ver` in the RoverEx entry. Each piece of a
 * text field is checked on its own, and the pieces are put together with the
 * rules of the `Absence` module.
 */
module TextFacts {
  import opened JsString
  import opened Absence
  import opened Projects

  /** A probe for any query containing `rover`. */
  const VER := "ver"
  /** A probe for any query containing `zzz`. */
  const ZZZ := "zzz"

  const V_CASED: set<char> := {'v', 'V'}
  const E_CASED: set<char> := {'e', 'E'}
  const R_CASED: set<char> := {'r', 'R'}
  const Z_CASED: set<char> := {'z', 'Z'}
  const V_Z_CASED: set<char> := {'v', 'V', 'z', 'Z'}

  /** A piece with neither `v` nor `z` in either case is clean for both probes. */
  lemma PlainClean(s: string)
    requires Avoids(s, V_Z_CASED)
    ensures Clean(s, VER) && Clean(s, ZZZ)
  {
    assert Cased('v') == V_CASED && Cased('z') == Z_CASED;
    AvoidsClean(s, VER);
    AvoidsClean(s, ZZZ);
  }

  /** A piece without `z` in which `v`, `e`, `r` never follow each other is clean for both probes. */
  lemma VClean(s: string)
    requires Avoids(s, Z_CASED) && LacksWindow(s, V_CASED, E_CASED, R_CASED)
    ensures Clean(s, VER) && Clean(s, ZZZ)
  {
    assert Cased('v') == V_CASED && Cased('e') == E_CASED && Cased('r') == R_CASED && Cased('z') == Z_CASED;
    WindowClean(s, VER);
    AvoidsClean(s, ZZZ);
  }

  /** A piece without `v` in which three `z` never follow each other is clean for both probes. */
  lemma ZClean(s: string)
    requires Avoids(s, V_CASED) && LacksWindow(s, Z_CASED, Z_CASED, Z_CASED)
    ensures Clean(s, VER) && Clean(s, ZZZ)
  {
    assert Cased('v') == V_CASED && Cased('z') == Z_CASED;
    AvoidsClean(s, VER);
    WindowClean(s, ZZZ);
  }

  /** A piece without `z` is clean for `zzz`. */
  lemma ZAbsentClean(s: string)
    requires Avoids(s, Z_CASED)
    ensures Clean(s, ZZZ)
  {
    assert Cased('z') == Z_CASED;
    AvoidsClean(s, ZZZ);
  }

  /** A piece in which three `z` never follow each other is clean for `zzz`. */
  lemma ZWindowClean(s: string)
    requires LacksWindow(s, Z_CASED, Z_CASED, Z_CASED)
    ensures Clean(s, ZZZ)
  {
    assert Cased('z') == Z_CASED;
    WindowClean(s, ZZZ);
  }

  lemma NssTitle0()
    ensures Avoids("NSS Space Settlement \U{2014} ", V_Z_CASED)
  {
  }

  lemma NssTitle1()
    ensures Avoids("Grand Prize", V_CASED) && LacksWindow("Grand Prize", Z_CASED, Z_CASED, Z_CASED)
  {
  }

  lemma NssTitleClean()
    ensures Clean(NSS_SETTLEMENT.title, VER) && Clean(NSS_SETTLEMENT.title, ZZZ)
  {
    NssTitle0();
    PlainClean("NSS Space Settlement \U{2014} ");
    NssTitle1();
    ZClean("Grand Prize");
    CleanAppend("NSS Space Settlement \U{2014} ", "Grand Prize", VER);
    CleanAppend("NSS Space Settlement \U{2014} ", "Grand Prize", ZZZ);
  }

  lemma NssSummary0()
    ensures Avoids("Two-tori space ", V_Z_CASED)
  {
  }

  lemma NssSummary1()
    ensures Avoids("settlement concept ", V_Z_CASED)
  {
  }

  lemma NssSummary2()
    ensures Avoids("orbiting Mars with ", V_Z_CASED)
  {
  }

  lemma NssSummary3()
    ensures Avoids("artificial ", V_Z_CASED)
  {
  }

  lemma NssSummary4()
    ensures Avoids("gravity, ", Z_CASED) && LacksWindow("gravity, ", V_CASED, E_CASED, R_CASED)
  {
  }

  lemma NssSummary5()
    ensures Avoids("radiation shielding, ", V_Z_CASED)
  {
  }

  lemma NssSummary6()
    ensures Avoids("life support, and a ", V_Z_CASED)
  {
  }

  lemma NssSummary7()
    ensures Avoids("secondary moon base for ", V_Z_CASED)
  {
  }

  lemma NssSummary8()
    ensures Avoids("resource acquisition.", V_Z_CASED)
  {
  }

  lemma NssSummaryClean()
    ensures Clean(NSS_SETTLEMENT.summary, VER) && Clean(NSS_SETTLEMENT.summary, ZZZ)
  {
    NssSummary0();
    PlainClean("Two-tori space ");
    NssSummary1();
    PlainClean("settlement concept ");
    NssSummary2();
    PlainClean("orbiting Mars with ");
    NssSummary3();
    PlainClean("artificial ");
    NssSummary4();
    VClean("gravity, ");
    NssSummary5();
    PlainClean("radiation shielding, ");
    NssSummary6();
    PlainClean("life support, and a ");
    NssSummary7();
    PlainClean("secondary moon base for ");
    NssSummary8();
    PlainClean("resource acquisition.");
    CleanAppend("Two-tori space ", "settlement concept ", VER);
    CleanAppend("Two-tori space ", "settlement concept ", ZZZ);
    CleanAppend("Two-tori space " + "settlement concept ", "orbiting Mars with ", VER);
    CleanAppend("Two-tori space " + "settlement concept ", "orbiting Mars with ", ZZZ);
    CleanAppend("Two-tori space " + "settlement concept " + "orbiting Mars with ", "artificial ", VER);
    CleanAppend("Two-tori space " + "settlement concept " + "orbiting Mars with ", "artificial ", ZZZ);
    CleanAppend("Two-tori space " + "settlement concept " + "orbiting Mars with " + "artificial ", "gravity, ", VER);
    CleanAppend("Two-tori space " + "settlement concept " + "orbiting Mars with " + "artificial ", "gravity, ", ZZZ);
    CleanAppend("Two-tori space " + "settlement concept " + "orbiting Mars with " + "artificial " + "gravity, ", "radiation shielding, ", VER);
    CleanAppend("Two-tori space " + "settlement concept " + "orbiting Mars with " + "artificial " + "gravity, ", "radiation shielding, ", ZZZ);
    CleanAppend("Two-tori space " + "settlement concept " + "orbiting Mars with " + "artificial " + "gravity, " + "radiation shielding, ", "life support, and a ", VER);
    CleanAppend("Two-tori space " + "settlement concept " + "orbiting Mars with " + "artificial " + "gravity, " + "radiation shielding, ", "life support, and a ", ZZZ);
    CleanAppend("Two-tori space " + "settlement concept " + "orbiting Mars with " + "artificial " + "gravity, " + "radiation shielding, " + "life support, and a ", "secondary moon base for ", VER);
    CleanAppend("Two-tori space " + "settlement concept " + "orbiting Mars with " + "artificial " + "gravity, " + "radiation shielding, " + "life support, and a ", "secondary moon base for ", ZZZ);
    CleanAppend("Two-tori space " + "settlement concept " + "orbiting Mars with " + "artificial " + "gravity, " + "radiation shielding, " + "life support, and a " + "secondary moon base for ", "resource acquisition.", VER);
    CleanAppend("Two-tori space " + "settlement concept " + "orbiting Mars with " + "artificial " + "gravity, " + "radiation shielding, " + "life support, and a " + "secondary moon base for ", "resource acquisition.", ZZZ);
  }

  lemma NssTechPlain()
    ensures Avoids(NSS_SETTLEMENT.tech[0], V_Z_CASED) && Avoids(NSS_SETTLEMENT.tech[1], V_Z_CASED) && Avoids(NSS_SETTLEMENT.tech[2], V_Z_CASED)
  {
  }

  lemma RoverexTitle0()
    ensures Avoids("RoverEx \U{2014} ", Z_CASED)
  {
  }

  lemma RoverexTitle1()
    ensures Avoids("Pollution & Methane ", Z_CASED)
  {
  }

  lemma RoverexTitle2()
    ensures Avoids("Study (IRPrO ", Z_CASED)
  {
  }

  lemma RoverexTitle3()
    ensures LacksWindow("Bronze)", Z_CASED, Z_CASED, Z_CASED)
  {
  }

  lemma RoverexTitleClean()
    ensures Clean(ROVEREX.title, ZZZ)
  {
    RoverexTitle0();
    ZAbsentClean("RoverEx \U{2014} ");
    RoverexTitle1();
    ZAbsentClean("Pollution & Methane ");
    RoverexTitle2();
    ZAbsentClean("Study (IRPrO ");
    RoverexTitle3();
    ZWindowClean("Bronze)");
    CleanAppend("RoverEx \U{2014} ", "Pollution & Methane ", ZZZ);
    CleanAppend("RoverEx \U{2014} " + "Pollution & Methane ", "Study (IRPrO ", ZZZ);
    CleanAppend("RoverEx \U{2014} " + "Pollution & Methane " + "Study (IRPrO ", "Bronze)", ZZZ);
  }

  lemma RoverexSummary0()
    ensures Avoids("Custom ", Z_CASED)
  {
  }

  lemma RoverexSummary1()
    ensures Avoids("rover with ", Z_CASED)
  {
  }

  lemma RoverexSummary2()
    ensures Avoids("CO\U{2082}/CO/SO\U{2082}/CH\U{2084} sensors ", Z_CASED)
  {
  }

  lemma RoverexSummary3()
    ensures Avoids("comparing ", Z_CASED)
  {
  }

  lemma RoverexSummary4()
    ensures Avoids("pre/post\U{2011}pandemic air ", Z_CASED)
  {
  }

  lemma RoverexSummary5()
    ensures Avoids("quality in Bucharest; ", Z_CASED)
  {
  }

  lemma RoverexSummary6()
    ensures Avoids("data collection ", Z_CASED)
  {
  }

  lemma RoverexSummary7()
    ensures Avoids("via ", Z_CASED)
  {
  }

  lemma RoverexSummary8()
    ensures Avoids("Raspberry Pi + Arduino ", Z_CASED)
  {
  }

  lemma RoverexSummary9()
    ensures Avoids("and a React GUI.", Z_CASED)
  {
  }

  lemma RoverexSummaryClean()
    ensures Clean(ROVEREX.summary, ZZZ)
  {
    RoverexSummary0();
    ZAbsentClean("Custom ");
    RoverexSummary1();
    ZAbsentClean("rover with ");
    RoverexSummary2();
    ZAbsentClean("CO\U{2082}/CO/SO\U{2082}/CH\U{2084} sensors ");
    RoverexSummary3();
    ZAbsentClean("comparing ");
    RoverexSummary4();
    ZAbsentClean("pre/post\U{2011}pandemic air ");
    RoverexSummary5();
    ZAbsentClean("quality in Bucharest; ");
    RoverexSummary6();
    ZAbsentClean("data collection ");
    RoverexSummary7();
    ZAbsentClean("via ");
    RoverexSummary8();
    ZAbsentClean("Raspberry Pi + Arduino ");
    RoverexSummary9();
    ZAbsentClean("and a React GUI.");
    CleanAppend("Custom ", "rover with ", ZZZ);
    CleanAppend("Custom " + "rover with ", "CO\U{2082}/CO/SO\U{2082}/CH\U{2084} sensors ", ZZZ);
    CleanAppend("Custom " + "rover with " + "CO\U{2082}/CO/SO\U{2082}/CH\U{2084} sensors ", "comparing ", ZZZ);
    CleanAppend("Custom " + "rover with " + "CO\U{2082}/CO/SO\U{2082}/CH\U{2084} sensors " + "comparing ", "pre/post\U{2011}pandemic air ", ZZZ);
    CleanAppend("Custom " + "rover with " + "CO\U{2082}/CO/SO\U{2082}/CH\U{2084} sensors " + "comparing " + "pre/post\U{2011}pandemic air ", "quality in Bucharest; ", ZZZ);
    CleanAppend("Custom " + "rover with " + "CO\U{2082}/CO/SO\U{2082}/CH\U{2084} sensors " + "comparing " + "pre/post\U{2011}pandemic air " + "quality in Bucharest; ", "data collection ", ZZZ);
    CleanAppend("Custom " + "rover with " + "CO\U{2082}/CO/SO\U{2082}/CH\U{2084} sensors " + "comparing " + "pre/post\U{2011}pandemic air " + "quality in Bucharest; " + "data collection ", "via ", ZZZ);
    CleanAppend("Custom " + "rover with " + "CO\U{2082}/CO/SO\U{2082}/CH\U{2084} sensors " + "comparing " + "pre/post\U{2011}pandemic air " + "quality in Bucharest; " + "data collection " + "via ", "Raspberry Pi + Arduino ", ZZZ);
    CleanAppend("Custom " + "rover with " + "CO\U{2082}/CO/SO\U{2082}/CH\U{2084} sensors " + "comparing " + "pre/post\U{2011}pandemic air " + "quality in Bucharest; " + "data collection " + "via " + "Raspberry Pi + Arduino ", "and a React GUI.", ZZZ);
  }

  lemma RoverexTechPlain()
    ensures Avoids(ROVEREX.tech[0], V_Z_CASED) && Avoids(ROVEREX.tech[1], V_Z_CASED) && Avoids(ROVEREX.tech[2], V_Z_CASED) && Avoids(ROVEREX.tech[3], V_Z_CASED) && Avoids(ROVEREX.tech[4], V_Z_CASED)
  {
  }

  lemma MoonCampTitle0()
    ensures Avoids("ESA Moon Camp \U{2014} ", V_Z_CASED)
  {
  }

  lemma MoonCampTitle1()
    ensures Avoids("Pioneers (3rd Place)", V_Z_CASED)
  {
  }

  lemma MoonCampTitleClean()
    ensures Clean(MOON_CAMP.title, VER) && Clean(MOON_CAMP.title, ZZZ)
  {
    MoonCampTitle0();
    PlainClean("ESA Moon Camp \U{2014} ");
    MoonCampTitle1();
    PlainClean("Pioneers (3rd Place)");
    CleanAppend("ESA Moon Camp \U{2014} ", "Pioneers (3rd Place)", VER);
    CleanAppend("ESA Moon Camp \U{2014} ", "Pioneers (3rd Place)", ZZZ);
  }

  lemma MoonCampSummary0()
    ensures Avoids("3D\U{2011}modeled lunar base ", V_Z_CASED)
  {
  }

  lemma MoonCampSummary1()
    ensures Avoids("concept using Blender & ", V_Z_CASED)
  {
  }

  lemma MoonCampSummary2()
    ensures Avoids("Fusion 360, focused on ", V_Z_CASED)
  {
  }

  lemma MoonCampSummary3()
    ensures Avoids("habitat layout, ", V_Z_CASED)
  {
  }

  lemma MoonCampSummary4()
    ensures Avoids("shielding, and in\U{2011}situ ", V_Z_CASED)
  {
  }

  lemma MoonCampSummary5()
    ensures Avoids("resource use.", V_Z_CASED)
  {
  }

  lemma MoonCampSummaryClean()
    ensures Clean(MOON_CAMP.summary, VER) && Clean(MOON_CAMP.summary, ZZZ)
  {
    MoonCampSummary0();
    PlainClean("3D\U{2011}modeled lunar base ");
    MoonCampSummary1();
    PlainClean("concept using Blender & ");
    MoonCampSummary2();
    PlainClean("Fusion 360, focused on ");
    MoonCampSummary3();
    PlainClean("habitat layout, ");
    MoonCampSummary4();
    PlainClean("shielding, and in\U{2011}situ ");
    MoonCampSummary5();
    PlainClean("resource use.");
    CleanAppend("3D\U{2011}modeled lunar base ", "concept using Blender & ", VER);
    CleanAppend("3D\U{2011}modeled lunar base ", "concept using Blender & ", ZZZ);
    CleanAppend("3D\U{2011}modeled lunar base " + "concept using Blender & ", "Fusion 360, focused on ", VER);
    CleanAppend("3D\U{2011}modeled lunar base " + "concept using Blender & ", "Fusion 360, focused on ", ZZZ);
    CleanAppend("3D\U{2011}modeled lunar base " + "concept using Blender & " + "Fusion 360, focused on ", "habitat layout, ", VER);
    CleanAppend("3D\U{2011}modeled lunar base " + "concept using Blender & " + "Fusion 360, focused on ", "habitat layout, ", ZZZ);
    CleanAppend("3D\U{2011}modeled lunar base " + "concept using Blender & " + "Fusion 360, focused on " + "habitat layout, ", "shielding, and in\U{2011}situ ", VER);
    CleanAppend("3D\U{2011}modeled lunar base " + "concept using Blender & " + "Fusion 360, focused on " + "habitat layout, ", "shielding, and in\U{2011}situ ", ZZZ);
    CleanAppend("3D\U{2011}modeled lunar base " + "concept using Blender & " + "Fusion 360, focused on " + "habitat layout, " + "shielding, and in\U{2011}situ ", "resource use.", VER);
    CleanAppend("3D\U{2011}modeled lunar base " + "concept using Blender & " + "Fusion 360, focused on " + "habitat layout, " + "shielding, and in\U{2011}situ ", "resource use.", ZZZ);
  }

  lemma MoonCampTechPlain()
    ensures Avoids(MOON_CAMP.tech[0], V_Z_CASED) && Avoids(MOON_CAMP.tech[1], V_Z_CASED) && Avoids(MOON_CAMP.tech[2], V_Z_CASED)
  {
  }

  lemma FestivalTitle0()
    ensures Avoids("Bucharest Science ", V_Z_CASED)
  {
  }

  lemma FestivalTitle1()
    ensures Avoids("Festival \U{2014} ", Z_CASED) && LacksWindow("Festival \U{2014} ", V_CASED, E_CASED, R_CASED)
  {
  }

  lemma FestivalTitle2()
    ensures Avoids("STEM Outreach", V_Z_CASED)
  {
  }

  lemma FestivalTitleClean()
    ensures Clean(SCIENCE_FESTIVAL.title, VER) && Clean(SCIENCE_FESTIVAL.title, ZZZ)
  {
    FestivalTitle0();
    PlainClean("Bucharest Science ");
    FestivalTitle1();
    VClean("Festival \U{2014} ");
    FestivalTitle2();
    PlainClean("STEM Outreach");
    CleanAppend("Bucharest Science ", "Festival \U{2014} ", VER);
    CleanAppend("Bucharest Science ", "Festival \U{2014} ", ZZZ);
    CleanAppend("Bucharest Science " + "Festival \U{2014} ", "STEM Outreach", VER);
    CleanAppend("Bucharest Science " + "Festival \U{2014} ", "STEM Outreach", ZZZ);
  }

  lemma FestivalSummary0()
    ensures Avoids("Volunteering ", Z_CASED) && LacksWindow("Volunteering ", V_CASED, E_CASED, R_CASED)
  {
  }

  lemma FestivalSummary1()
    ensures Avoids("to promote STEM through ", V_Z_CASED)
  {
  }

  lemma FestivalSummary2()
    ensures Avoids("demos and talks across ", V_Z_CASED)
  {
  }

  lemma FestivalSummary3()
    ensures Avoids("multiple ", V_Z_CASED)
  {
  }

  lemma FestivalSummary4()
    ensures Avoids("festival ", Z_CASED) && LacksWindow("festival ", V_CASED, E_CASED, R_CASED)
  {
  }

  lemma FestivalSummary5()
    ensures Avoids("editions.", V_Z_CASED)
  {
  }

  lemma FestivalSummaryClean()
    ensures Clean(SCIENCE_FESTIVAL.summary, VER) && Clean(SCIENCE_FESTIVAL.summary, ZZZ)
  {
    FestivalSummary0();
    VClean("Volunteering ");
    FestivalSummary1();
    PlainClean("to promote STEM through ");
    FestivalSummary2();
    PlainClean("demos and talks across ");
    FestivalSummary3();
    PlainClean("multiple ");
    FestivalSummary4();
    VClean("festival ");
    FestivalSummary5();
    PlainClean("editions.");
    CleanAppend("Volunteering ", "to promote STEM through ", VER);
    CleanAppend("Volunteering ", "to promote STEM through ", ZZZ);
    CleanAppend("Volunteering " + "to promote STEM through ", "demos and talks across ", VER);
    CleanAppend("Volunteering " + "to promote STEM through ", "demos and talks across ", ZZZ);
    CleanAppend("Volunteering " + "to promote STEM through " + "demos and talks across ", "multiple ", VER);
    CleanAppend("Volunteering " + "to promote STEM through " + "demos and talks across ", "multiple ", ZZZ);
    CleanAppend("Volunteering " + "to promote STEM through " + "demos and talks across " + "multiple ", "festival ", VER);
    CleanAppend("Volunteering " + "to promote STEM through " + "demos and talks across " + "multiple ", "festival ", ZZZ);
    CleanAppend("Volunteering " + "to promote STEM through " + "demos and talks across " + "multiple " + "festival ", "editions.", VER);
    CleanAppend("Volunteering " + "to promote STEM through " + "demos and talks across " + "multiple " + "festival ", "editions.", ZZZ);
  }

  lemma FestivalTechPlain()
    ensures Avoids(SCIENCE_FESTIVAL.tech[0], V_Z_CASED) && Avoids(SCIENCE_FESTIVAL.tech[1], V_Z_CASED)
  {
  }

  lemma MovTitle0()
    ensures Avoids("MOV \U{2014} ", Z_CASED) && LacksWindow("MOV \U{2014} ", V_CASED, E_CASED, R_CASED)
  {
  }

  lemma MovTitle1()
    ensures Avoids("Mentoring Online ", V_Z_CASED)
  {
  }

  lemma MovTitle2()
    ensures Avoids("Volunteers", Z_CASED) && LacksWindow("Volunteers", V_CASED, E_CASED, R_CASED)
  {
  }

  lemma MovTitleClean()
    ensures Clean(MOV.title, VER) && Clean(MOV.title, ZZZ)
  {
    MovTitle0();
    VClean("MOV \U{2014} ");
    MovTitle1();
    PlainClean("Mentoring Online ");
    MovTitle2();
    VClean("Volunteers");
    CleanAppend("MOV \U{2014} ", "Mentoring Online ", VER);
    CleanAppend("MOV \U{2014} ", "Mentoring Online ", ZZZ);
    CleanAppend("MOV \U{2014} " + "Mentoring Online ", "Volunteers", VER);
    CleanAppend("MOV \U{2014} " + "Mentoring Online ", "Volunteers", ZZZ);
  }

  lemma MovSummary0()
    ensures Avoids("Online tutoring for ", V_Z_CASED)
  {
  }

  lemma MovSummary1()
    ensures Avoids("students from rural ", V_Z_CASED)
  {
  }

  lemma MovSummary2()
    ensures Avoids("areas in mathematics ", V_Z_CASED)
  {
  }

  lemma MovSummary3()
    ensures Avoids("and English; ", V_Z_CASED)
  {
  }

  lemma MovSummary4()
    ensures Avoids("developed ", Z_CASED) && LacksWindow("developed ", V_CASED, E_CASED, R_CASED)
  {
  }

  lemma MovSummary5()
    ensures Avoids("teaching materials and ", V_Z_CASED)
  {
  }

  lemma MovSummary6()
    ensures Avoids("exercises.", V_Z_CASED)
  {
  }

  lemma MovSummaryClean()
    ensures Clean(MOV.summary, VER) && Clean(MOV.summary, ZZZ)
  {
    MovSummary0();
    PlainClean("Online tutoring for ");
    MovSummary1();
    PlainClean("students from rural ");
    MovSummary2();
    PlainClean("areas in mathematics ");
    MovSummary3();
    PlainClean("and English; ");
    MovSummary4();
    VClean("developed ");
    MovSummary5();
    PlainClean("teaching materials and ");
    MovSummary6();
    PlainClean("exercises.");
    CleanAppend("Online tutoring for ", "students from rural ", VER);
    CleanAppend("Online tutoring for ", "students from rural ", ZZZ);
    CleanAppend("Online tutoring for " + "students from rural ", "areas in mathematics ", VER);
    CleanAppend("Online tutoring for " + "students from rural ", "areas in mathematics ", ZZZ);
    CleanAppend("Online tutoring for " + "students from rural " + "areas in mathematics ", "and English; ", VER);
    CleanAppend("Online tutoring for " + "students from rural " + "areas in mathematics ", "and English; ", ZZZ);
    CleanAppend("Online tutoring for " + "students from rural " + "areas in mathematics " + "and English; ", "developed ", VER);
    CleanAppend("Online tutoring for " + "students from rural " + "areas in mathematics " + "and English; ", "developed ", ZZZ);
    CleanAppend("Online tutoring for " + "students from rural " + "areas in mathematics " + "and English; " + "developed ", "teaching materials and ", VER);
    CleanAppend("Online tutoring for " + "students from rural " + "areas in mathematics " + "and English; " + "developed ", "teaching materials and ", ZZZ);
    CleanAppend("Online tutoring for " + "students from rural " + "areas in mathematics " + "and English; " + "developed " + "teaching materials and ", "exercises.", VER);
    CleanAppend("Online tutoring for " + "students from rural " + "areas in mathematics " + "and English; " + "developed " + "teaching materials and ", "exercises.", ZZZ);
  }

  lemma MovTechPlain()
    ensures Avoids(MOV.tech[0], V_Z_CASED) && Avoids(MOV.tech[1], V_Z_CASED)
  {
  }

  lemma KaiaTitle0()
    ensures Avoids("KAIA ", V_Z_CASED)
  {
  }

  lemma KaiaTitle1()
    ensures Avoids("Activity", Z_CASED) && LacksWindow("Activity", V_CASED, E_CASED, R_CASED)
  {
  }

  lemma KaiaTitleClean()
    ensures Clean(KAIA.title, VER) && Clean(KAIA.title, ZZZ)
  {
    KaiaTitle0();
    PlainClean("KAIA ");
    KaiaTitle1();
    VClean("Activity");
    CleanAppend("KAIA ", "Activity", VER);
    CleanAppend("KAIA ", "Activity", ZZZ);
  }

  lemma KaiaSummary0()
    ensures Avoids("Student ", V_Z_CASED)
  {
  }

  lemma KaiaSummary1()
    ensures Avoids("initiative/workshop ", Z_CASED) && LacksWindow("initiative/workshop ", V_CASED, E_CASED, R_CASED)
  {
  }

  lemma KaiaSummary2()
    ensures Avoids("advancing ", Z_CASED) && LacksWindow("advancing ", V_CASED, E_CASED, R_CASED)
  {
  }

  lemma KaiaSummary3()
    ensures Avoids("peer learning. (Brief ", V_Z_CASED)
  {
  }

  lemma KaiaSummary4()
    ensures Avoids("generated ", V_Z_CASED)
  {
  }

  lemma KaiaSummary5()
    ensures Avoids("description\U{2014}update if ", V_Z_CASED)
  {
  }

  lemma KaiaSummary6()
    ensures Avoids("you prefer.)", V_Z_CASED)
  {
  }

  lemma KaiaSummaryClean()
    ensures Clean(KAIA.summary, VER) && Clean(KAIA.summary, ZZZ)
  {
    KaiaSummary0();
    PlainClean("Student ");
    KaiaSummary1();
    VClean("initiative/workshop ");
    KaiaSummary2();
    VClean("advancing ");
    KaiaSummary3();
    PlainClean("peer learning. (Brief ");
    KaiaSummary4();
    PlainClean("generated ");
    KaiaSummary5();
    PlainClean("description\U{2014}update if ");
    KaiaSummary6();
    PlainClean("you prefer.)");
    CleanAppend("Student ", "initiative/workshop ", VER);
    CleanAppend("Student ", "initiative/workshop ", ZZZ);
    CleanAppend("Student " + "initiative/workshop ", "advancing ", VER);
    CleanAppend("Student " + "initiative/workshop ", "advancing ", ZZZ);
    CleanAppend("Student " + "initiative/workshop " + "advancing ", "peer learning. (Brief ", VER);
    CleanAppend("Student " + "initiative/workshop " + "advancing ", "peer learning. (Brief ", ZZZ);
    CleanAppend("Student " + "initiative/workshop " + "advancing " + "peer learning. (Brief ", "generated ", VER);
    CleanAppend("Student " + "initiative/workshop " + "advancing " + "peer learning. (Brief ", "generated ", ZZZ);
    CleanAppend("Student " + "initiative/workshop " + "advancing " + "peer learning. (Brief " + "generated ", "description\U{2014}update if ", VER);
    CleanAppend("Student " + "initiative/workshop " + "advancing " + "peer learning. (Brief " + "generated ", "description\U{2014}update if ", ZZZ);
    CleanAppend("Student " + "initiative/workshop " + "advancing " + "peer learning. (Brief " + "generated " + "description\U{2014}update if ", "you prefer.)", VER);
    CleanAppend("Student " + "initiative/workshop " + "advancing " + "peer learning. (Brief " + "generated " + "description\U{2014}update if ", "you prefer.)", ZZZ);
  }

  lemma KaiaTechPlain()
    ensures Avoids(KAIA.tech[0], V_Z_CASED)
  {
  }

}
