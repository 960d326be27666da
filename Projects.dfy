/**
 * The portfolio's project records and the list the page filters.
 *
 * Long text fields are written as concatenations of short pieces; the value is
 * the same string, and the pieces let the absence of a search term be shown one
 * piece at a time.
 */
module Projects {
  import opened Wrappers

  /** A project's links: a repository URL (empty when there is none) and an optional document path. */
  datatype Links = Links(repo: string, docs: Option<string>)

  /** One entry of the project list. */
  datatype Project = Project(
    title: string,
    year: int,
    summary: string,
    tech: seq<string>,
    links: Links,
    image: string)

  const NSS_SETTLEMENT: Project := Project(
    title := "NSS Space Settlement \U{2014} " + "Grand Prize",
    year := 2024,
    summary :=
      "Two-tori space " +
      "settlement concept " +
      "orbiting Mars with " +
      "artificial " +
      "gravity, " +
      "radiation shielding, " +
      "life support, and a " +
      "secondary moon base for " +
      "resource acquisition.",
    tech := ["Blender", "CAD", "Space Systems"],
    links := Links(repo := "", docs := Some("docs/PROJECT_NOVA_2.pdf")),
    image := "images/nss1.png")

  const ROVEREX: Project := Project(
    title := "RoverEx \U{2014} " + "Pollution & Methane " + "Study (IRPrO " + "Bronze)",
    year := 2022,
    summary :=
      "Custom " +
      "rover with " +
      "CO\U{2082}/CO/SO\U{2082}/CH\U{2084} sensors " +
      "comparing " +
      "pre/post\U{2011}pandemic air " +
      "quality in Bucharest; " +
      "data collection " +
      "via " +
      "Raspberry Pi + Arduino " +
      "and a React GUI.",
    tech := ["Arduino", "Raspberry Pi", "C", "Python", "React"],
    links := Links(repo := "", docs := Some("docs/Roverex.pdf")),
    image := "images/irpro_logo.png")

  const MOON_CAMP: Project := Project(
    title := "ESA Moon Camp \U{2014} " + "Pioneers (3rd Place)",
    year := 2021,
    summary :=
      "3D\U{2011}modeled lunar base " +
      "concept using Blender & " +
      "Fusion 360, focused on " +
      "habitat layout, " +
      "shielding, and in\U{2011}situ " +
      "resource use.",
    tech := ["Blender", "Fusion 360", "CAD"],
    links := Links(repo := "", docs := None),
    image := "images/nasa_logo.png")

  const SCIENCE_FESTIVAL: Project := Project(
    title := "Bucharest Science " + "Festival \U{2014} " + "STEM Outreach",
    year := 2023,
    summary :=
      "Volunteering " +
      "to promote STEM through " +
      "demos and talks across " +
      "multiple " +
      "festival " +
      "editions.",
    tech := ["STEM Outreach", "Communication"],
    links := Links(repo := "", docs := None),
    image := "images/bucharest_science_fair.png")

  const MOV: Project := Project(
    title := "MOV \U{2014} " + "Mentoring Online " + "Volunteers",
    year := 2023,
    summary :=
      "Online tutoring for " +
      "students from rural " +
      "areas in mathematics " +
      "and English; " +
      "developed " +
      "teaching materials and " +
      "exercises.",
    tech := ["Mentoring", "Education"],
    links := Links(repo := "", docs := None),
    image := "images/mov.png")

  const KAIA: Project := Project(
    title := "KAIA " + "Activity",
    year := 2023,
    summary :=
      "Student " +
      "initiative/workshop " +
      "advancing " +
      "peer learning. (Brief " +
      "generated " +
      "description\U{2014}update if " +
      "you prefer.)",
    tech := ["Leadership"],
    links := Links(repo := "", docs := None),
    image := "images/kaia_activity.png")

  /** The projects in the order the page lists them. */
  const PROJECTS: seq<Project> := [NSS_SETTLEMENT, ROVEREX, MOON_CAMP, SCIENCE_FESTIVAL, MOV, KAIA]

  /** A project lists at least one tech tag and none twice, so its tag chips, keyed by the tag, get distinct keys. */
  predicate WellTagged(p: Project) {
    p.tech != [] && forall j, k :: 0 <= j < k < |p.tech| ==> p.tech[j] != p.tech[k]
  }

  /** The page lists six projects, each of them well tagged. */
  lemma ProjectsWellTagged()
    ensures |PROJECTS| == 6
    ensures forall i :: 0 <= i < |PROJECTS| ==> WellTagged(PROJECTS[i])
  {
    assert WellTagged(NSS_SETTLEMENT);
    assert WellTagged(ROVEREX);
    assert WellTagged(MOON_CAMP);
    assert WellTagged(SCIENCE_FESTIVAL);
    assert WellTagged(MOV);
    assert WellTagged(KAIA);
  }
}
