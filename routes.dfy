/** The URLs the client requests: the fixed API root, the three resources
    under it, the path selection of `GetUser`, and a reader that tells which
    resource a URL names. */
module Routes {
  import opened Wrappers
  import opened Session

  /** The API root; not configurable. */
  const GithubApiUrl: string := "https://api.github.com"

  /** The authenticated viewer's own profile. */
  const SelfUrl: string := GithubApiUrl + "/user"

  /** The public profile of a login is this prefix followed by the login. */
  const PublicPrefix: string := GithubApiUrl + "/users/"

  /** The authenticated viewer's email addresses. */
  const EmailsUrl: string := GithubApiUrl + "/user/emails"

  /** The resources the client reaches. */
  datatype Target = SelfProfile | PublicProfile(login: string) | OwnEmails

  function TargetUrl(t: Target): string
  {
    match t
    case SelfProfile => SelfUrl
    case PublicProfile(login) => PublicPrefix + login
    case OwnEmails => EmailsUrl
  }

  /** Which resource a URL names, if any; the reference against which the
      URLs built by the client are read. */
  function ParseUrl(url: string): Option<Target>
  {
    if url == SelfUrl then Some(SelfProfile)
    else if url == EmailsUrl then Some(OwnEmails)
    else if PublicPrefix <= url then Some(PublicProfile(url[|PublicPrefix|..]))
    else None
  }

  /** `GetUser`'s rule for "fetch yourself": the queried name is the
      session's own, or it is empty and the session has a username. An
      anonymous session queried with "" satisfies the first disjunct. */
  predicate QueriesSelf(u: AuthenticatedUser, username: string)
  {
    u.username == username || (u.username != "" && username == "")
  }

  /** The URL `GetUser` requests. */
  function UserPath(u: AuthenticatedUser, username: string): (path: string)
    // The viewer's own profile exactly when the self rule holds ...
    ensures path == SelfUrl <==> QueriesSelf(u, username)
    // ... and otherwise the public profile with the name inserted verbatim.
    ensures !QueriesSelf(u, username) ==> path == PublicPrefix + username
    // Whatever the name, it never reaches the email list.
    ensures path != EmailsUrl
  {
    if QueriesSelf(u, username) then
      SelfUrl
    else
      assert |PublicPrefix + username| >= |PublicPrefix| > |SelfUrl|;
      assert (PublicPrefix + username)[|GithubApiUrl| + 5] == 's' != EmailsUrl[|GithubApiUrl| + 5];
      PublicPrefix + username
  }

  /** Every resource's URL reads back as that resource; in particular a
      login is recoverable from its public-profile URL unchanged. */
  lemma ParseTargetUrl(t: Target)
    ensures ParseUrl(TargetUrl(t)) == Some(t)
  {
    match t
    case SelfProfile =>
    case OwnEmails =>
    case PublicProfile(login) =>
      var url := PublicPrefix + login;
      assert |url| > |SelfUrl|;
      assert url[|GithubApiUrl| + 5] == 's' != EmailsUrl[|GithubApiUrl| + 5];
      assert url[..|PublicPrefix|] == PublicPrefix;
      assert url[|PublicPrefix|..] == login;
  }

  /** Whatever a URL is read as, it is exactly that resource's URL. */
  lemma ParseUrlSound(url: string, t: Target)
    requires ParseUrl(url) == Some(t)
    ensures TargetUrl(t) == url
  {
  }

  /** Distinct resources have distinct URLs. */
  lemma TargetUrlInjective(t1: Target, t2: Target)
    requires TargetUrl(t1) == TargetUrl(t2)
    ensures t1 == t2
  {
    ParseTargetUrl(t1);
    ParseTargetUrl(t2);
  }

  /** The URL `GetUser` requests names the viewer's own profile under the
      self rule and otherwise the public profile of the literal name. */
  lemma UserPathTarget(u: AuthenticatedUser, username: string)
    ensures ParseUrl(UserPath(u, username)) ==
              Some(if QueriesSelf(u, username) then SelfProfile else PublicProfile(username))
  {
  }

  /** The quirk of the self rule: an anonymous session asking for "" goes
      to the viewer's own profile. */
  lemma AnonymousEmptyQueryIsSelf()
    ensures UserPath(Anonymous, "") == SelfUrl
  {
  }

  /** An anonymous session asking for a non-empty name goes to that name's
      public profile. */
  lemma AnonymousQueryIsPublic(username: string)
    requires username != ""
    ensures UserPath(Anonymous, username) == PublicPrefix + username
  {
  }

  /** An authenticated session asking for "" goes to its own profile. */
  lemma AuthenticatedEmptyQueryIsSelf(u: AuthenticatedUser)
    requires u.HasCredentials()
    ensures UserPath(u, "") == SelfUrl
  {
  }
}
