/** The navigation sidebar: the links a user sees (the administration block
    only for administrators), the highlighted link, and the footer with the
    user's initial, name and role. */
module Sidebar {
  import opened Domain
  import PrivateRoutes

  /** `isAdmin`: a signed-in user whose type is "admin". */
  predicate IsAdmin(user: Option<User>)
  {
    user.Some? && user.value.tipoDeUsuario == "admin"
  }

  /** The links every signed-in user sees, top to bottom. */
  const MainLinks: seq<string> :=
    ["/dashboard", "/movimentacoes/acessos", "/movimentacoes/frota", "/relatorios", "/pessoas", "/veiculos"]

  /** The administration block. */
  const AdminLinks: seq<string> := ["/usuarios", "/postos", "/setores", "/acoes-movimentacoes"]

  /** The links shown, in order: the main ones, then the administration
      block for an administrator. */
  function VisibleLinks(user: Option<User>): (r: seq<string>)
    ensures |MainLinks| <= |r| && r[..|MainLinks|] == MainLinks
    ensures forall p :: p in r <==> p in MainLinks || (IsAdmin(user) && p in AdminLinks)
  {
    if IsAdmin(user) then MainLinks + AdminLinks else MainLinks
  }

  /** No path appears twice in a sequence. */
  predicate Distinct(s: seq<string>)
  {
    forall i, j :: 0 <= i < j < |s| ==> s[i] != s[j]
  }

  lemma VisibleLinksDistinct(user: Option<User>)
    ensures Distinct(VisibleLinks(user))
  {
    var r := MainLinks + AdminLinks;
    assert r == ["/dashboard", "/movimentacoes/acessos", "/movimentacoes/frota", "/relatorios",
                 "/pessoas", "/veiculos", "/usuarios", "/postos", "/setores", "/acoes-movimentacoes"];
  }

  datatype Style = Highlighted | Plain

  /** The link classes: each style has its own. */
  function StyleClass(s: Style): (c: string)
    ensures c == "bg-white text-blue-900 shadow-sm" <==> s == Highlighted
    ensures c == "text-gray-700 hover:bg-gray-200" <==> s == Plain
  {
    match s
    case Highlighted => "bg-white text-blue-900 shadow-sm"
    case Plain => "text-gray-700 hover:bg-gray-200"
  }

  /** `isActive`: a link is highlighted exactly when it is the current path. */
  function IsActive(pathname: string, path: string): (s: Style)
    ensures s == Highlighted <==> pathname == path
  {
    if pathname == path then Highlighted else Plain
  }

  /** Whatever the current path, at most one visible link is highlighted. */
  lemma AtMostOneHighlighted(user: Option<User>, pathname: string)
    ensures forall i, j :: 0 <= i < j < |VisibleLinks(user)| ==>
      IsActive(pathname, VisibleLinks(user)[i]) == Plain || IsActive(pathname, VisibleLinks(user)[j]) == Plain
  {
    VisibleLinksDistinct(user);
  }

  /** `handleLinkClick`: how many times a click calls `onClose`; the
      drawer's close callback is only passed on small screens. */
  function LinkClickCalls(onCloseProvided: bool): (calls: nat)
    ensures calls <= 1
    ensures calls == 1 <==> onCloseProvided
  {
    if onCloseProvided then 1 else 0
  }

  /** The administration links are shown exactly to the users who pass a
      route guarded with the "admin" type. */
  lemma AdminLinksMatchAdminGuard(u: User)
    ensures IsAdmin(Some(u)) <==> PrivateRoutes.Guard(false, Some(u), Some("admin")) == PrivateRoutes.Outlet
    ensures IsAdmin(Some(u)) <==> "/usuarios" in VisibleLinks(Some(u))
  {
  }

  /** The one guarded route is given no type, so a signed-in operator passes
      the guard although the sidebar hides the administration links from
      them; those links, like every path but the dashboard, reach the
      sign-in page through the catch-all route rather than the guard. */
  lemma HiddenLinksAreNotGuarded(u: User)
    requires u.tipoDeUsuario != "admin"
    ensures "/usuarios" !in VisibleLinks(Some(u))
    ensures PrivateRoutes.Guard(false, Some(u), None) == PrivateRoutes.Outlet
    ensures forall p :: p in AdminLinks ==> PrivateRoutes.Route(p) == PrivateRoutes.SignInScreen
  {
    assert "/usuarios" !in MainLinks;
  }

  /** Only the first link, the dashboard, leads to a routed page; every other
      link of the menu opens the sign-in page. */
  lemma OnlyDashboardLinkIsRouted(user: Option<User>)
    ensures PrivateRoutes.Route(VisibleLinks(user)[0]) == PrivateRoutes.GuardedDashboard
    ensures forall i :: 0 < i < |VisibleLinks(user)| ==>
      PrivateRoutes.Route(VisibleLinks(user)[i]) == PrivateRoutes.SignInScreen
  {
    VisibleLinksDistinct(user);
    assert VisibleLinks(user)[0] == "/dashboard";
  }

  /** The avatar letter: the first character of the name, or "U" when there
      is no user, no name or an empty name. */
  function Initial(user: Option<User>): (r: string)
    ensures |r| == 1
    ensures user.Some? && user.value.nome.Some? && user.value.nome.value != "" ==> r == [user.value.nome.value[0]]
    ensures !(user.Some? && user.value.nome.Some? && user.value.nome.value != "") ==> r == "U"
  {
    if user.Some? && user.value.nome.Some? && user.value.nome.value != "" then [user.value.nome.value[0]] else "U"
  }

  /** The name line: the user's name, or "Usuário" when it is missing or empty. */
  function DisplayName(user: Option<User>): (r: string)
    ensures r != ""
    ensures r == "Usuário" || (user.Some? && user.value.nome == Some(r))
    ensures user.Some? && user.value.nome.Some? && user.value.nome.value != "" ==> r == user.value.nome.value
  {
    if user.Some? && user.value.nome.Some? && user.value.nome.value != "" then user.value.nome.value else "Usuário"
  }

  /** The role line. */
  function RoleLabel(user: Option<User>): (r: string)
    ensures r == "Administrador" <==> IsAdmin(user)
    ensures r == "Operador" <==> !IsAdmin(user)
  {
    if IsAdmin(user) then "Administrador" else "Operador"
  }

  /** The avatar and the name agree: the avatar is the name's first letter. */
  lemma InitialStartsDisplayName(user: Option<User>)
    requires DisplayName(user) != "Usuário"
    ensures Initial(user) == DisplayName(user)[..1]
  {
  }
}
