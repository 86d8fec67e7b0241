/** Which top-level screen is showing (`page`, `renderPage`) and the
    navigation buttons whose presence depends on the signed-in user. */
module Navigation {
  import opened Wrappers
  import opened Auth

  /** The values the application ever stores as `page`. */
  datatype Page =
    | Home
    | Tutorials
    | Tutorial(id: string)
    | Certificate(tutorialTitle: string)
    | Exercises

  /** The object literal stored in `page`, with the fields `renderPage` reads;
      a field the literal leaves out is "". */
  datatype PageRecord = PageRecord(name: string, id: string, tutorialTitle: string)

  function ToRecord(p: Page): PageRecord {
    match p
    case Home => PageRecord("home", "", "")
    case Tutorials => PageRecord("tutorials", "", "")
    case Tutorial(id) => PageRecord("tutorial", id, "")
    case Certificate(title) => PageRecord("certificate", "", title)
    case Exercises => PageRecord("exercises", "", "")
  }

  /** The page component `renderPage` mounts, with the props it passes. */
  datatype View =
    | HomePage
    | TutorialsPage
    | TutorialDisplayPage(tutorialId: string)
    | CertificatePage(tutorialTitle: string)
    | ExercisesPage

  predicate KnownName(name: string) {
    name == "home" || name == "tutorials" || name == "tutorial"
    || name == "certificate" || name == "exercises"
  }

  function RenderPage(page: PageRecord): (v: View)
    ensures v.TutorialsPage? <==> page.name == "tutorials"
    ensures v.TutorialDisplayPage? <==> page.name == "tutorial"
    ensures v.CertificatePage? <==> page.name == "certificate"
    ensures v.ExercisesPage? <==> page.name == "exercises"
    ensures v.HomePage? <==> page.name == "home" || !KnownName(page.name)
    ensures v.TutorialDisplayPage? ==> v.tutorialId == page.id
    ensures v.CertificatePage? ==> v.tutorialTitle == page.tutorialTitle
  {
    match page.name
    case "home" => HomePage
    case "tutorials" => TutorialsPage
    case "tutorial" => TutorialDisplayPage(page.id)
    case "certificate" => CertificatePage(page.tutorialTitle)
    case "exercises" => ExercisesPage
    case _ => HomePage
  }

  /** The page a mounted view stands for. */
  function PageOf(v: View): Page {
    match v
    case HomePage => Home
    case TutorialsPage => Tutorials
    case TutorialDisplayPage(id) => Tutorial(id)
    case CertificatePage(title) => Certificate(title)
    case ExercisesPage => Exercises
  }

  /** Rendering a stored page mounts the view for exactly that page, with its
      payload intact. */
  lemma RenderPageRoundTrip(p: Page)
    ensures PageOf(RenderPage(ToRecord(p))) == p
  {
  }

  /** What the certificate screen shows. */
  datatype CertificateScreen =
    | LoginRequired
    | Awarded(recipient: string, course: string)

  function CertificateScreenFor(user: Option<User>, tutorialTitle: string): (s: CertificateScreen)
    ensures s.LoginRequired? <==> user.None?
    ensures s.Awarded? ==> s.recipient == user.value.name && s.course == tutorialTitle
  {
    match user
    case None => LoginRequired
    case Some(u) => Awarded(u.name, tutorialTitle)
  }

  /** The pages the buttons of a certificate screen lead to
      (the download button does not navigate). */
  function CertificateActions(s: CertificateScreen): (r: seq<Page>)
    ensures |r| == 1
    ensures r[0] == Home <==> s.LoginRequired?
    ensures r[0] == Tutorials <==> s.Awarded?
  {
    match s
    case LoginRequired => [Home]
    case Awarded(_, _) => [Tutorials]
  }

  /** Without a user the certificate screen is a gate whose only way out is
      Home, whatever title the page carries. */
  lemma GateLeadsHome(tutorialTitle: string)
    ensures CertificateActions(CertificateScreenFor(None, tutorialTitle)) == [Home]
  {
  }

  /** The pages the buttons above a tutorial lead to: back to the list, and
      the certificate for a signed-in user. */
  function TutorialActions(user: Option<User>, tutorialTitle: string): (r: seq<Page>)
    ensures |r| > 0 && r[0] == Tutorials
    ensures (exists i :: 0 <= i < |r| && r[i].Certificate?) <==> user.Some?
    ensures forall i :: 0 <= i < |r| && r[i].Certificate? ==> r[i].tutorialTitle == tutorialTitle
  {
    var back := [Tutorials];
    if user.Some? then
      var r := back + [Certificate(tutorialTitle)];
      assert r[1].Certificate?;
      r
    else
      back
  }
}
