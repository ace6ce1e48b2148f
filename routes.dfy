/**
 * The route table: the login and registration pages are for signed-out
 * visitors, the project list and the project page for signed-in ones; the
 * wrong kind of visitor is redirected. Only the token's truthiness matters.
 */
module Routes {
  import opened Wrappers
  import opened Text

  /** The locations the table knows, and everything else. */
  datatype Location = LoginPath | RegisterPath | HomePath | ProjectPath(id: string) | Unmatched

  datatype Page = LoginPage | RegisterPage | HomePage | ProjectPage(id: string)

  /** What the router shows at a location: a page, a redirect, or nothing for an unknown path. */
  datatype Outcome = Render(page: Page) | Redirect(to: Location) | Nothing

  /** The guards test the stored token for truthiness: `null` and `""` both mean signed out. */
  function SignedIn(token: Option<string>): (b: bool)
    ensures b <==> token.Some? && token.value != ""
  {
    Present(token)
  }

  /** The route table: auth pages for guests, the home and project pages for a signed-in user. */
  function Route(at: Location, token: Option<string>): (o: Outcome)
    ensures at == Unmatched <==> o == Nothing
    ensures (at == LoginPath || at == RegisterPath) && SignedIn(token) ==> o == Redirect(HomePath)
    ensures (at == HomePath || at.ProjectPath?) && !SignedIn(token) ==> o == Redirect(LoginPath)
    ensures at == LoginPath && !SignedIn(token) ==> o == Render(LoginPage)
    ensures at == RegisterPath && !SignedIn(token) ==> o == Render(RegisterPage)
    ensures at == HomePath && SignedIn(token) ==> o == Render(HomePage)
    ensures at.ProjectPath? && SignedIn(token) ==> o == Render(ProjectPage(at.id))
  {
    match at
    case LoginPath => if !SignedIn(token) then Render(LoginPage) else Redirect(HomePath)
    case RegisterPath => if !SignedIn(token) then Render(RegisterPage) else Redirect(HomePath)
    case HomePath => if SignedIn(token) then Render(HomePage) else Redirect(LoginPath)
    case ProjectPath(id) => if SignedIn(token) then Render(ProjectPage(id)) else Redirect(LoginPath)
    case Unmatched => Nothing
  }

  /** A redirect's target renders a page in the same token state, so no chain is longer than one step. */
  lemma RedirectOnce(at: Location, token: Option<string>)
    ensures Route(at, token).Redirect? ==> Route(Route(at, token).to, token).Render?
  {
  }

  /** Two tokens of the same truthiness route alike; the empty token counts as signed out. */
  lemma RouteByTruthiness(at: Location, t1: Option<string>, t2: Option<string>)
    requires SignedIn(t1) == SignedIn(t2)
    ensures Route(at, t1) == Route(at, t2)
  {
  }

  /** Every known location renders a page for exactly one of the two token states. */
  lemma RendersForOneState(at: Location, token: Option<string>)
    requires at != Unmatched
    ensures Route(at, token).Render? <==> (SignedIn(token) <==> at == HomePath || at.ProjectPath?)
  {
  }
}
