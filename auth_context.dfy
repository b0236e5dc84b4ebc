/** The authentication context: the signed-in user, session and profile, how a
    profile is built from the backend rows or, failing that, from the user, and
    how the remote sign-up and sign-in calls are reported to the screens. */
module AuthContext {
  import opened Optional

  /** The four study profiles. */
  datatype ProfileType = Faculdade | Concurso | Oab | Advogado

  function ProfileTypeName(p: ProfileType): string {
    match p
    case Faculdade => "faculdade"
    case Concurso => "concurso"
    case Oab => "oab"
    case Advogado => "advogado"
  }

  /** The stored `profile_type` is kept only when it is one of the four names. */
  function NormaliseProfileType(stored: Option<string>): (r: Option<ProfileType>)
    ensures r.Some? ==> stored == Some(ProfileTypeName(r.value))
  {
    if stored == Some("faculdade") then Some(Faculdade)
    else if stored == Some("concurso") then Some(Concurso)
    else if stored == Some("oab") then Some(Oab)
    else if stored == Some("advogado") then Some(Advogado)
    else None
  }

  /** Normalising accepts exactly the four names and gives back the profile
      each one names. */
  lemma NormaliseRoundTrip(p: ProfileType, stored: Option<string>)
    ensures NormaliseProfileType(Some(ProfileTypeName(p))) == Some(p)
    ensures NormaliseProfileType(stored).None? <==>
      forall q: ProfileType :: stored != Some(ProfileTypeName(q))
  {
    if NormaliseProfileType(stored).None? {
      forall q: ProfileType ensures stored != Some(ProfileTypeName(q)) {
        match q
        case Faculdade =>
        case Concurso =>
        case Oab =>
        case Advogado =>
      }
    }
  }

  /** The user metadata written at sign-up. */
  datatype Metadata = Metadata(nomeCompleto: Option<string>, profileType: Option<string>)

  /** The backend's user record, as far as the context reads it. */
  datatype User = User(id: string, email: Option<string>, metadata: Option<Metadata>)

  datatype Session = Session(accessToken: string, user: Option<User>)

  /** `session?.user ?? null` */
  function UserOf(session: Option<Session>): Option<User> {
    if session.None? then None else session.value.user
  }

  /** A profile; the profile type holds the text it was stored with, since the
      metadata path stores it unchecked. */
  datatype Profile = Profile(id: string, nomeCompleto: Option<string>, email: string, profileType: Option<string>)

  /** `s.split('@')[0]`: everything before the first '@', or all of `s`. */
  function BeforeFirstAt(s: string): (r: string)
    ensures |r| <= |s| && r == s[..|r|]
    ensures '@' !in r
    ensures |r| < |s| ==> s[|r|] == '@'
  {
    if s == [] || s[0] == '@' then [] else [s[0]] + BeforeFirstAt(s[1..])
  }

  /** The three properties of `BeforeFirstAt` pin it down: any prefix without
      '@' that ends the string or stops at an '@' is that one. */
  lemma {:induction false} BeforeFirstAtUnique(s: string, r: string)
    requires |r| <= |s| && r == s[..|r|] && '@' !in r
    requires |r| < |s| ==> s[|r|] == '@'
    ensures r == BeforeFirstAt(s)
    decreases |s|
  {
    if s != [] && s[0] != '@' {
      assert r[0] == s[0];
      assert r[1..] == s[1..][..|r| - 1];
      BeforeFirstAtUnique(s[1..], r[1..]);
      assert r == [s[0]] + r[1..];
    }
  }

  const DefaultName := "Usuário"

  /** `user?.email?.split('@')[0] || 'Usuário'` */
  function FallbackName(email: Option<string>): (name: string)
    ensures name != ""
    ensures name == DefaultName || (email.Some? && name == BeforeFirstAt(email.value))
  {
    if email.Some? && BeforeFirstAt(email.value) != "" then BeforeFirstAt(email.value) else DefaultName
  }

  /** The name is the e-mail's local part whenever that is not empty, and the
      default exactly when the e-mail is absent or starts with '@'. */
  lemma FallbackNameCases(email: Option<string>)
    ensures FallbackName(email) == DefaultName <==>
      email.None? || email.value == [] || email.value[0] == '@' || BeforeFirstAt(email.value) == DefaultName
    ensures email.Some? && email.value != [] && email.value[0] != '@' ==>
      FallbackName(email) == BeforeFirstAt(email.value)
  {
  }

  /** A concrete case: "ana@example.com" is shown as "ana". */
  lemma FallbackNameOfAddress()
    ensures FallbackName(Some("ana@example.com")) == "ana"
  {
    var s := "ana@example.com";
    BeforeFirstAtUnique(s, "ana");
  }

  /** What the two backend queries of `fetchProfile` gave: the `perfis` row
      (`None` when there is none) and the stored profile type; or a failure. */
  datatype ProfileRow = ProfileRow(id: string, nomeCompleto: Option<string>, email: string)
  datatype FetchOutcome = Fetched(row: Option<ProfileRow>, storedType: Option<string>) | FetchFailed

  /** `fetchProfile`: the new profile, or `None` when it is left unchanged.
      `seen` is the user the handler's closure holds. */
  function FetchedProfile(userId: string, outcome: FetchOutcome, seen: Option<User>): (p: Option<Profile>)
    ensures outcome.Fetched? ==> (p.None? <==> outcome.row.None?)
    ensures outcome.Fetched? && outcome.row.Some? ==>
      && p.value.id == outcome.row.value.id
      && p.value.nomeCompleto == outcome.row.value.nomeCompleto
      && p.value.email == outcome.row.value.email
      && (p.value.profileType.Some? <==> NormaliseProfileType(outcome.storedType).Some?)
      && (p.value.profileType.Some? ==> p.value.profileType == outcome.storedType)
    ensures outcome.FetchFailed? ==>
      && p.Some? && p.value.id == userId
      && p.value.email == (if seen.Some? && seen.value.email.Some? then seen.value.email.value else "")
    ensures outcome.FetchFailed? && (seen.None? || seen.value.metadata.None?) ==>
      && p.value.nomeCompleto == Some(FallbackName(if seen.Some? then seen.value.email else None))
      && p.value.profileType.None?
    ensures outcome.FetchFailed? && seen.Some? && seen.value.metadata.Some? ==>
      && p.value.nomeCompleto == seen.value.metadata.value.nomeCompleto
      && p.value.profileType == seen.value.metadata.value.profileType
  {
    match outcome
    case Fetched(row, storedType) =>
      if row.None? then None
      else
        var p := NormaliseProfileType(storedType);
        Some(Profile(row.value.id, row.value.nomeCompleto, row.value.email,
                     if p.Some? then Some(ProfileTypeName(p.value)) else None))
    case FetchFailed =>
      var email := if seen.Some? && seen.value.email.Some? then seen.value.email.value else "";
      if seen.Some? && seen.value.metadata.Some? then
        Some(Profile(userId, seen.value.metadata.value.nomeCompleto, email, seen.value.metadata.value.profileType))
      else
        Some(Profile(userId, Some(FallbackName(if seen.Some? then seen.value.email else None)), email, None))
  }

  /** A profile read from the tables always carries one of the four types or
      none; the fallbacks keep the user's id, and the basic one always has a
      non-empty name and no type. */
  lemma FetchedProfileShape(userId: string, outcome: FetchOutcome, seen: Option<User>)
    ensures outcome.Fetched? ==>
      (FetchedProfile(userId, outcome, seen).None? <==> outcome.row.None?)
    ensures outcome.Fetched? && FetchedProfile(userId, outcome, seen).Some? ==>
      var t := FetchedProfile(userId, outcome, seen).value.profileType;
      t.None? || NormaliseProfileType(t).Some?
    ensures outcome.FetchFailed? ==>
      && FetchedProfile(userId, outcome, seen).Some?
      && FetchedProfile(userId, outcome, seen).value.id == userId
    ensures outcome.FetchFailed? && (seen.None? || seen.value.metadata.None?) ==>
      var p := FetchedProfile(userId, outcome, seen).value;
      p.nomeCompleto.Some? && p.nomeCompleto.value != "" && p.profileType.None?
  {
    if outcome.Fetched? && outcome.row.Some? {
      var p := NormaliseProfileType(outcome.storedType);
      if p.Some? {
        NormaliseRoundTrip(p.value, None);
      }
    }
  }

  /** The metadata fallback copies the stored type unchecked, so a profile can
      end up with a type outside the four. */
  lemma MetadataTypeIsUnchecked()
    ensures var p := FetchedProfile("u1", FetchFailed, Some(User("u1", None, Some(Metadata(None, Some("admin"))))));
      p.Some? && p.value.profileType == Some("admin") && NormaliseProfileType(p.value.profileType).None?
  {
  }

  /** How a remote call ended: it returned an error (or none), or it threw. */
  datatype Call = Returned(error: Option<string>) | Threw

  /** "Erro inesperado durante o cadastro. Tente novamente." */
  const UnexpectedSignUpMessage := "Erro inesperado " + "durante o cadastro. " + "Tente novamente."

  /** `signUp`: an exception is caught and turned into an error with a fixed
      message, so the caller never sees one. */
  function SignUpResult(call: Call): (r: Call)
    ensures r.Returned?
    ensures r.error.None? <==> call == Returned(None)
    ensures call.Returned? ==> r == call
    ensures call.Threw? ==> r.error == Some(UnexpectedSignUpMessage)
  {
    match call
    case Returned(e) => Returned(e)
    case Threw => Returned(Some(UnexpectedSignUpMessage))
  }

  /** `signIn` has no handler of its own: unlike sign-up, an exception of the
      remote call reaches the caller, and a returned error is passed on as is. */
  function SignInResult(call: Call): (r: Call)
    ensures r.Threw? <==> call.Threw?
    ensures r.Returned? ==> r.error == call.error
  {
    call
  }

  /** `useAuth`: the context, or the error thrown outside a provider. */
  datatype Result<T> = Success(value: T) | Failure(error: string)

  const OutsideProvider := "useAuth deve ser usado dentro de um AuthProvider"

  function UseAuth<T>(context: Option<T>): (r: Result<T>)
    ensures r.Success? <==> context.Some?
    ensures r.Success? ==> r.value == context.value
    ensures r.Failure? ==> r.error == OutsideProvider
  {
    if context.None? then Failure(OutsideProvider) else Success(context.value)
  }

  /** The provider's state. */
  class AuthState {
    var user: Option<User>
    var session: Option<Session>
    var profile: Option<Profile>
    var loading: bool

    constructor ()
      ensures user == None && session == None && profile == None && loading
    {
      user := None;
      session := None;
      profile := None;
      loading := true;
    }

    /** The auth-state listener. An unmounted provider ignores the event.
        Otherwise session and user follow the event, a user-less event drops
        the profile, a user's id is returned as the profile fetch to schedule,
        and loading ends. */
    method OnAuthStateChange(event: Option<Session>, mounted: bool) returns (fetchFor: Option<string>)
      modifies this
      ensures !mounted ==>
        fetchFor == None && user == old(user) && session == old(session) && profile == old(profile) && loading == old(loading)
      ensures mounted ==> session == event && user == UserOf(event) && !loading
      ensures mounted && user.None? ==> profile == None && fetchFor == None
      ensures mounted && user.Some? ==> profile == old(profile) && fetchFor == Some(user.value.id)
    {
      fetchFor := None;
      if !mounted {
        return;
      }
      session := event;
      user := UserOf(event);
      if user.Some? {
        fetchFor := Some(user.value.id);
      } else {
        profile := None;
      }
      loading := false;
    }

    /** The initial `getSession` answer: like the listener, except that a
        missing user leaves the profile as it was. */
    method OnInitialSession(found: Option<Session>, mounted: bool) returns (fetchFor: Option<string>)
      modifies this
      ensures !mounted ==>
        fetchFor == None && user == old(user) && session == old(session) && profile == old(profile) && loading == old(loading)
      ensures mounted ==> session == found && user == UserOf(found) && !loading && profile == old(profile)
      ensures mounted ==> fetchFor == if user.Some? then Some(user.value.id) else None
    {
      fetchFor := None;
      if !mounted {
        return;
      }
      session := found;
      user := UserOf(found);
      if user.Some? {
        fetchFor := Some(user.value.id);
      }
      loading := false;
    }

    /** The deferred fetch, run only while mounted; the closure sees `seen`. */
    method FetchProfile(userId: string, outcome: FetchOutcome, seen: Option<User>, mounted: bool)
      modifies this
      ensures user == old(user) && session == old(session) && loading == old(loading)
      ensures profile == if mounted && FetchedProfile(userId, outcome, seen).Some?
        then FetchedProfile(userId, outcome, seen) else old(profile)
    {
      if mounted {
        var fetched := FetchedProfile(userId, outcome, seen);
        if fetched.Some? {
          profile := fetched;
        }
      }
    }

    /** `signOut`: once the remote call returns (whatever error it reports) the
        profile is cleared; when it throws, the exception reaches the caller
        before the profile is touched. `call` is what the remote call did. */
    method SignOut(call: Call) returns (threw: bool)
      modifies this
      ensures threw <==> call.Threw?
      ensures profile == if call.Threw? then old(profile) else None
      ensures user == old(user) && session == old(session) && loading == old(loading)
    {
      if call.Threw? {
        return true;
      }
      profile := None;
      return false;
    }
  }

  /** Signing out followed by the backend's user-less event leaves no user,
      no session and no profile, and loading over, whether or not the remote
      sign-out threw. */
  method SignOutThenEvent(state: AuthState, call: Call)
    modifies state
    ensures state.user == None && state.session == None && state.profile == None && !state.loading
  {
    var threw := state.SignOut(call);
    var fetch := state.OnAuthStateChange(None, true);
  }
}
