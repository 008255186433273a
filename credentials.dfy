/**
 * Small helpers around a cluster's identity and credentials: the TKG version
 * annotation, the merge of declared credentials with a credentials secret,
 * and the redaction applied to the copy of a VCD cluster that is serialised.
 */
module Credentials {
  import opened Outcomes

  datatype SecretRef = SecretRef(name: string, namespace: string)

  /** The credentials a VCD cluster declares, optionally pointing at a secret. */
  datatype UserCredentialsContext = UserCredentialsContext(
    username: string,
    password: string,
    refreshToken: string,
    secretRef: Option<SecretRef>)

  const TkgVersionLabel := "TKGVERSION"
  const RedactedValue := "***REDACTED***"
  const UsernameKey := "username"
  const PasswordKey := "password"
  const RefreshTokenKey := "refreshToken"

  /** The TKG version annotation of a cluster, or "" when it has none. */
  function GetTkgVersion(annotations: map<string, string>): (version: string)
    ensures TkgVersionLabel in annotations ==> version == annotations[TkgVersionLabel]
    ensures TkgVersionLabel !in annotations ==> version == ""
  {
    if TkgVersionLabel in annotations then annotations[TkgVersionLabel] else ""
  }

  /** `s` without its trailing run of newlines, as Go's strings.TrimRight(s, "\n"). */
  function TrimTrailingNewlines(s: string): (t: string)
    ensures t <= s
    ensures |t| == 0 || t[|t| - 1] != '\n'
    ensures forall i | |t| <= i < |s| :: s[i] == '\n'
  {
    if |s| > 0 && s[|s| - 1] == '\n' then TrimTrailingNewlines(s[..|s| - 1]) else s
  }

  /** The three properties of TrimTrailingNewlines determine its result. */
  lemma {:induction false} TrimIsUnique(s: string, t: string)
    requires t <= s
    requires |t| == 0 || t[|t| - 1] != '\n'
    requires forall i | |t| <= i < |s| :: s[i] == '\n'
    ensures t == TrimTrailingNewlines(s)
  {
    if |s| > 0 && s[|s| - 1] == '\n' {
      TrimIsUnique(s[..|s| - 1], t);
    }
  }

  /** Trimming twice trims nothing more. */
  lemma TrimIsIdempotent(s: string)
    ensures TrimTrailingNewlines(TrimTrailingNewlines(s)) == TrimTrailingNewlines(s)
  {
    var t := TrimTrailingNewlines(s);
    TrimIsUnique(t, t);
  }

  /** A secret entry overrides a declared value, trimmed; without the entry the declared value stays. */
  function Override(declared: string, data: map<string, string>, key: string): (v: string)
    ensures key !in data ==> v == declared
    ensures key in data ==> v <= data[key] && (|v| == 0 || v[|v| - 1] != '\n')
    ensures key in data ==> forall i | |v| <= i < |data[key]| :: data[key][i] == '\n'
  {
    if key in data then TrimTrailingNewlines(data[key]) else declared
  }

  /**
   * The credentials a cluster uses.  Without a secret reference they are the
   * declared ones; with one, `secret` is the outcome of reading that secret's
   * data, and each of its username, password and refreshToken entries that is
   * present overrides the declared value after trailing newlines are trimmed.
   * The result never carries a secret reference.
   */
  function GetUserCredentialsForCluster(declared: UserCredentialsContext, secret: Result<map<string, string>>)
    : (r: Result<UserCredentialsContext>)
    ensures declared.secretRef.None? ==>
              r == Ok(UserCredentialsContext(declared.username, declared.password, declared.refreshToken, None))
    ensures declared.secretRef.Some? ==> (r.Ok? <==> secret.Ok?)
    ensures r.Ok? ==> r.value.secretRef.None?
    ensures r.Ok? && declared.secretRef.Some? ==>
              (UsernameKey in secret.value ==> r.value.username == TrimTrailingNewlines(secret.value[UsernameKey])) &&
              (UsernameKey !in secret.value ==> r.value.username == declared.username) &&
              (PasswordKey in secret.value ==> r.value.password == TrimTrailingNewlines(secret.value[PasswordKey])) &&
              (PasswordKey !in secret.value ==> r.value.password == declared.password) &&
              (RefreshTokenKey in secret.value ==>
                 r.value.refreshToken == TrimTrailingNewlines(secret.value[RefreshTokenKey])) &&
              (RefreshTokenKey !in secret.value ==> r.value.refreshToken == declared.refreshToken)
  {
    if declared.secretRef.None? then
      Ok(UserCredentialsContext(declared.username, declared.password, declared.refreshToken, None))
    else
      match secret
      case Err(e) => Err(e)
      case Ok(data) =>
        Ok(UserCredentialsContext(
          Override(declared.username, data, UsernameKey),
          Override(declared.password, data, PasswordKey),
          Override(declared.refreshToken, data, RefreshTokenKey),
          None))
  }

  /** No credential read from a secret ends in a newline. */
  lemma MergedSecretValuesHaveNoTrailingNewline(declared: UserCredentialsContext, data: map<string, string>)
    requires declared.secretRef.Some?
    ensures var c := GetUserCredentialsForCluster(declared, Ok(data)).value;
            (UsernameKey in data && |c.username| > 0 ==> c.username[|c.username| - 1] != '\n') &&
            (PasswordKey in data && |c.password| > 0 ==> c.password[|c.password| - 1] != '\n') &&
            (RefreshTokenKey in data && |c.refreshToken| > 0 ==> c.refreshToken[|c.refreshToken| - 1] != '\n')
  {
  }

  /**
   * The credentials as they appear in the serialised copy of the VCD cluster:
   * username, password and refresh token replaced by the redaction marker,
   * the secret reference kept.
   */
  function Redacted(c: UserCredentialsContext): (r: UserCredentialsContext)
    ensures r.username == RedactedValue && r.password == RedactedValue && r.refreshToken == RedactedValue
    ensures r.secretRef == c.secretRef
  {
    c.(username := RedactedValue, password := RedactedValue, refreshToken := RedactedValue)
  }

  /** Redaction forgets the secrets: two credentials with the same secret reference redact alike. */
  lemma RedactionForgetsSecrets(a: UserCredentialsContext, b: UserCredentialsContext)
    requires a.secretRef == b.secretRef
    ensures Redacted(a) == Redacted(b)
  {
  }
}
