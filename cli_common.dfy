/**
 * Credential resolution shared by the command-line scripts
 * (`cli_common.py`): the user name, the password and the
 * `extension_types` flag, each derived from the raw argument fields.
 */
module CliCommon {
  import opened Effects
  import opened Text

  /** The raw argument fields the three functions read; `None` is an argument not given. */
  datatype AuthArgs = AuthArgs(auth: Option<string>, password: Option<string>, extensionTypes: Option<string>)

  /** `extract_auth_user`: "NoUser" without `--auth`, otherwise the text before the first colon. */
  function ExtractAuthUser(args: AuthArgs): (user: string)
    ensures args.auth.None? ==> user == "NoUser"
    ensures args.auth.Some? ==>
      var a := args.auth.value;
      ':' !in user && user <= a && (|user| < |a| ==> a[|user|] == ':')
    ensures args.auth.Some? && ':' !in args.auth.value ==> user == args.auth.value
  {
    match args.auth
    case None => "NoUser"
    case Some(a) =>
      var tokens := Split(a, ':');
      JoinHead(tokens, ':');
      tokens[0]
  }

  /**
   * `extract_auth_password`: absent without `--auth`; with a colon in `--auth`,
   * the second colon-separated token (possibly empty), whatever `--password`
   * says; without a colon, `--password` (possibly absent).
   */
  function ExtractAuthPassword(args: AuthArgs): (password: Option<string>)
    ensures args.auth.None? ==> password.None?
    ensures args.auth.Some? && ':' !in args.auth.value ==> password == args.password
    ensures args.auth.Some? && ':' in args.auth.value ==>
      var a, start := args.auth.value, |ExtractAuthUser(args)| + 1;
      password.Some? && ':' !in password.value &&
      start + |password.value| <= |a| && a[start..start + |password.value|] == password.value &&
      (start + |password.value| < |a| ==> a[start + |password.value|] == ':')
  {
    match args.auth
    case None => None
    case Some(a) =>
      var tokens := Split(a, ':');
      JoinHead(tokens, ':');
      if |tokens| > 1 then
        var start, rest := |tokens[0]| + 1, Join(tokens[1..], ':');
        JoinHead(tokens[1..], ':');
        assert a[start..] == rest;
        assert a[start..start + |tokens[1]|] == rest[..|tokens[1]|];
        Some(tokens[1])
      else if args.password.Some? then args.password
      else None
  }

  /** `extract_extension_types`: true exactly for the string "True". */
  function ExtractExtensionTypes(args: AuthArgs): (flag: bool)
    ensures flag <==> args.extensionTypes == Some("True")
  {
    if args.extensionTypes.Some? && args.extensionTypes.value == "True" then true else false
  }

  /** With exactly one colon in `--auth`, user and password rebuild it. */
  lemma AuthRoundTrip(args: AuthArgs)
    requires args.auth.Some? && multiset(args.auth.value)[':'] == 1
    ensures ExtractAuthPassword(args).Some?
    ensures ExtractAuthUser(args) + ":" + ExtractAuthPassword(args).value == args.auth.value
  {
    var a := args.auth.value;
    var tokens := Split(a, ':');
    JoinSeparatorCount(tokens, ':');
    assert |tokens| == 2;
    JoinHead(tokens, ':');
    JoinHead(tokens[1..], ':');
  }

  /** The flag is case-sensitive and accepts no other spelling of truth. */
  lemma ExtensionTypesExact()
    ensures ExtractExtensionTypes(AuthArgs(None, None, Some("True")))
    ensures !ExtractExtensionTypes(AuthArgs(None, None, Some("true")))
    ensures !ExtractExtensionTypes(AuthArgs(None, None, Some("1")))
    ensures !ExtractExtensionTypes(AuthArgs(None, None, None))
  {
  }

  /** A combined token "alice:secret" gives user "alice" and password "secret". */
  lemma CombinedTokenExample(pw: Option<string>)
    ensures ExtractAuthUser(AuthArgs(Some("alice:secret"), pw, None)) == "alice"
    ensures ExtractAuthPassword(AuthArgs(Some("alice:secret"), pw, None)) == Some("secret")
  {
    JoinTwo("alice", "secret", ':');
    assert Join(["alice", "secret"], ':') == "alice:secret";
    SplitJoin(["alice", "secret"], ':');
  }

  /** Only the second colon-separated token is the password: "a:b:c" gives "b". */
  lemma SecondTokenExample(pw: Option<string>)
    ensures ExtractAuthPassword(AuthArgs(Some("a:b:c"), pw, None)) == Some("b")
  {
    JoinThree("a", "b", "c", ':');
    assert Join(["a", "b", "c"], ':') == "a:b:c";
    SplitJoin(["a", "b", "c"], ':');
  }

  /** An empty token after the colon still overrides a separate password. */
  lemma EmptyTokenExample()
    ensures ExtractAuthPassword(AuthArgs(Some("a:"), Some("pw"), None)) == Some("")
  {
    JoinTwo("a", "", ':');
    assert Join(["a", ""], ':') == "a:";
    SplitJoin(["a", ""], ':');
  }
}
