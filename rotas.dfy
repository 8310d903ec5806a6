/** The route guard (app/components/auth/ProtectedRoute.tsx): from the
    session state and the current path it decides which redirect its
    effect pushes and what the component renders. */
module Rotas {
  import opened Wrappers

  /** The default of the `publicPaths` prop: the paths that need no session. */
  const CaminhosPublicosPadrao: seq<string> := ["/login", "/registro", "/auth/callback"]

  /** The path the guard never sends a signed-in user away from. */
  const Callback: string := "/auth/callback"

  /** The `publicPaths` prop, with its default when it is not passed. */
  function CaminhosPublicos(publicPaths: Option<seq<string>>): (r: seq<string>)
    ensures publicPaths.None? ==> r == CaminhosPublicosPadrao
    ensures publicPaths.Some? ==> r == publicPaths.value
  {
    publicPaths.GetOr(CaminhosPublicosPadrao)
  }

  /** `publicPaths.includes(pathname)`: exact membership. */
  predicate EhPublico(publicPaths: Option<seq<string>>, pathname: string) {
    pathname in CaminhosPublicos(publicPaths)
  }

  /** With the default list, exactly the login, sign-up and callback pages
      are public. */
  lemma PublicosPadrao(pathname: string)
    ensures EhPublico(None, pathname) <==>
      pathname == "/login" || pathname == "/registro" || pathname == "/auth/callback"
  {
  }

  /** What the component renders: the loader, its children, or null. */
  datatype Exibicao = Carregando | Conteudo | Nada

  /** The result of one evaluation: the paths the effect pushes, in order,
      and what is rendered. */
  datatype Decisao = Decisao(redirecionamentos: seq<string>, exibicao: Exibicao)

  /** The effect: nothing while loading; `/login` for a visitor without a
      session on a non-public path; `/` for a signed-in user on a public
      path other than the callback. */
  function Redirecionamentos(isLoading: bool, isAuthenticated: bool, publico: bool, pathname: string)
    : (r: seq<string>)
    ensures |r| <= 1
    ensures isLoading ==> r == []
    ensures "/login" in r <==> !isLoading && !isAuthenticated && !publico
    ensures "/" in r <==> !isLoading && isAuthenticated && publico && pathname != Callback
    ensures forall p :: p in r ==> p == "/login" || p == "/"
  {
    if isLoading then []
    else
      (if !isAuthenticated && !publico then ["/login"] else []) +
      (if isAuthenticated && publico && pathname != Callback then ["/"] else [])
  }

  /** The render: the loader while loading, then the children on a
      public path or with a session, null otherwise. */
  function Exibir(isLoading: bool, isAuthenticated: bool, publico: bool): (e: Exibicao)
    ensures e == Carregando <==> isLoading
    ensures e == Conteudo <==> !isLoading && (publico || isAuthenticated)
    ensures e == Nada <==> !isLoading && !publico && !isAuthenticated
  {
    if isLoading then Carregando
    else if publico || isAuthenticated then Conteudo
    else Nada
  }

  /** One evaluation of `ProtectedRoute`. */
  function Avaliar(isLoading: bool, isAuthenticated: bool, pathname: string,
                   publicPaths: Option<seq<string>>): Decisao {
    var publico := EhPublico(publicPaths, pathname);
    Decisao(Redirecionamentos(isLoading, isAuthenticated, publico, pathname),
            Exibir(isLoading, isAuthenticated, publico))
  }

  /** Rendering null only happens together with the redirect to `/login`,
      and a protected page's content is only shown with a session. */
  lemma NadaRedirecionaParaLogin(isLoading: bool, isAuthenticated: bool, pathname: string,
                                 publicPaths: Option<seq<string>>)
    ensures var d := Avaliar(isLoading, isAuthenticated, pathname, publicPaths);
      d.exibicao == Nada <==> d.redirecionamentos == ["/login"]
    ensures var d := Avaliar(isLoading, isAuthenticated, pathname, publicPaths);
      d.exibicao == Conteudo && !EhPublico(publicPaths, pathname) ==> isAuthenticated
    ensures var d := Avaliar(isLoading, isAuthenticated, pathname, publicPaths);
      d.redirecionamentos != [] ==> !isLoading
  {
    var publico := EhPublico(publicPaths, pathname);
    var r := Redirecionamentos(isLoading, isAuthenticated, publico, pathname);
    if !isLoading && !publico && !isAuthenticated {
      assert "/login" in r;
    }
    if r == ["/login"] {
      assert "/login" in r;
    }
  }

  /** A signed-in user who is redirected to `/` still sees the page's
      content for that render, since the path is public. */
  lemma RedirecionadoParaInicioVeConteudo(isAuthenticated: bool, pathname: string,
                                          publicPaths: Option<seq<string>>)
    requires "/" in Avaliar(false, isAuthenticated, pathname, publicPaths).redirecionamentos
    ensures Avaliar(false, isAuthenticated, pathname, publicPaths).exibicao == Conteudo
  {
  }
}
