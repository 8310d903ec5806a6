/** The user menu (app/components/auth/UserProfile.tsx): the name shown for
    the signed-in user and the open/closed state of the menu. */
module Perfil {
  import opened Wrappers
  import opened Seqs
  import opened Text

  /** The fields of the auth user the component reads: `email` and
      `user_metadata.full_name`. */
  datatype Usuario = Usuario(email: Option<string>, fullName: Option<string>)

  /** The fallback name. */
  const NomePadrao: string := "Usuário"

  /** `s` up to (not including) the first `c`, or all of `s`. */
  predicate PrefixoAte(r: string, s: string, c: char) {
    && |r| <= |s| && s[..|r|] == r && c !in r
    && (|r| < |s| ==> s[|r|] == c)
  }

  lemma PrimeiraParte(s: string, c: char)
    ensures PrefixoAte(Split(s, c)[0], s, c)
  {
    SplitHead(s, c);
  }

  /** `obterNomeUsuario`: null without a user; the first word of a
      non-empty full name; otherwise the part of the email before the
      first `@`, or `"Usuário"` when that is missing or empty. */
  function NomeUsuario(user: Option<Usuario>): (r: Option<string>)
    ensures user.None? <==> r.None?
    ensures user.Some? && user.value.fullName.Some? && user.value.fullName.value != "" ==>
      PrefixoAte(r.value, user.value.fullName.value, ' ')
    ensures user.Some? && (user.value.fullName.None? || user.value.fullName.value == "") ==>
      if user.value.email.Some? && Split(user.value.email.value, '@')[0] != "" then
        PrefixoAte(r.value, user.value.email.value, '@')
      else
        r.value == NomePadrao
  {
    match user
    case None => None
    case Some(u) =>
      if u.fullName.Some? && u.fullName.value != "" then
        PrimeiraParte(u.fullName.value, ' ');
        Some(Split(u.fullName.value, ' ')[0])
      else if u.email.Some? && Split(u.email.value, '@')[0] != "" then
        PrimeiraParte(u.email.value, '@');
        Some(Split(u.email.value, '@')[0])
      else Some(NomePadrao)
  }

  /** The email part is empty exactly when the email starts with `@`
      (or is empty), which is when the fallback name is shown. */
  lemma EmailVazioSeComecaComArroba(email: string)
    ensures Split(email, '@')[0] == "" <==> email == "" || email[0] == '@'
  {
    PrimeiraParte(email, '@');
  }

  /** The state of the menu. */
  class MenuUsuario {
    var menuAberto: bool

    /** `useState(false)`. */
    constructor ()
      ensures !menuAberto
    {
      menuAberto := false;
    }

    /** `toggleMenu`: applying it twice restores the state. */
    method Alternar()
      modifies this
      ensures menuAberto == !old(menuAberto)
    {
      menuAberto := !menuAberto;
    }

    /** `fecharMenu`: idempotent, since it ignores the current state. */
    method Fechar()
      modifies this
      ensures !menuAberto
    {
      menuAberto := false;
    }
  }
}
