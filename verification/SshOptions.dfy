/**
  The client-side SSH option parser that strips socket and configuration overrides from a
  caller's tokens, against a list of all the options that a token list contains and against
  the separate parser that looks for the destination host. The option list splits tokens with
  the same `HeadOf` as the stripping itself; the destination parser shares nothing with it.

  Shell quoting and the keyword of an `-o` argument are parameters: a `Shell` holds the
  functions, and `Lawful` says what is used of them. `Shlex` has the quoting of the Python
  library and proves it lawful.
*/
module SshOptions {
  import opened Options

  datatype Shell = Shell(split: string -> Option<seq<string>>, join: seq<string> -> string, keyword: string -> string)

  const Ssh := "/usr/bin/ssh"

  /** Splitting undoes joining; quoting keeps a leading dash, and leaves the client's own path bare. */
  ghost predicate Lawful(sh: Shell) {
    && (forall xs :: sh.split(sh.join(xs)) == Some(xs))
    && (forall x :: sh.split(x).Some? && sh.split(x).value != [] && Dashed(x) ==> Dashed(sh.split(x).value[0]))
    && (forall xs :: xs != [] && xs[0] == Ssh ==> sh.join(xs) != "" && sh.join(xs)[0] == '/')
  }

  predicate Dashed(token: string) { token != "" && token[0] == '-' }
  predicate Long(token: string) { |token| >= 2 && token[0] == '-' && token[1] == '-' }

  /** An operand: a lone dash, or anything that does not start with one. */
  predicate Bare(token: string) { token == "-" || !Dashed(token) }

  /** Short options that consume the rest of their token or the following element. */
  predicate TakesArgument(c: char) {
    c in {'B', 'D', 'E', 'F', 'I', 'J', 'L', 'O', 'P', 'Q', 'R', 'S', 'W', 'b', 'c', 'e', 'i', 'l', 'm', 'o', 'p', 'w'}
  }

  predicate Owned(c: char) { c in {'F', 'S'} }
  predicate Refused(c: char) { c in {'I', 'J', 'O', 'i', 'l', 'p'} }

  predicate ForbiddenKeyword(name: string) {
    name in {"batchmode", "certificatefile", "challengeresponseauthentication", "controlmaster", "controlpersist",
             "gssapiauthentication", "hostbasedauthentication", "hostname", "identityagent", "identityfile",
             "kbdinteractiveauthentication", "knownhostscommand", "localcommand", "numberofpasswordprompts",
             "passwordauthentication", "permitlocalcommand", "pkcs11provider", "port", "preferredauthentications",
             "proxycommand", "proxyjump", "pubkeyauthentication", "securitykeyprovider", "user"}
  }

  predicate SocketKeyword(name: string) { name == "controlpath" }

  /** Where the first argument-taking letter of a cluster stands; its length when there is none. */
  function Scan(cluster: string, takes: char -> bool): (i: nat)
    ensures i <= |cluster| && (i < |cluster| ==> takes(cluster[i])) && forall j | 0 <= j < i :: !takes(cluster[j])
  {
    if cluster == "" then 0
    else if takes(cluster[0]) then 0
    else 1 + Scan(cluster[1..], takes)
  }

  // ------------------------------------------------------ reading an option list

  datatype Option' = Option'(letter: char, argument: string)

  /**
    One element of an option list: the end of options, a token that stands for itself, or an option
    with its argument, which takes one or two tokens.
  */
  datatype Head = End | Flags | Setting(option: Option', flags: string, size: nat) | Broken

  function HeadOf(tokens: seq<string>, stopAtHost: bool): (h: Head)
    requires tokens != []
    ensures h.Setting? ==> 1 <= h.size <= 2 && h.size <= |tokens|
  {
    var token := tokens[0];
    if token == "--" || (Bare(token) && stopAtHost) then End
    else if Bare(token) || Long(token) then Flags
    else
      var cluster := token[1..];
      var i := Scan(cluster, TakesArgument);
      if i == |cluster| then Flags
      else if i + 1 < |cluster| then Setting(Option'(cluster[i], cluster[i + 1..]), cluster[..i], 1)
      else if |tokens| == 1 then Broken
      else Setting(Option'(cluster[i], tokens[1]), cluster[..i], 2)
  }

  /** The options with arguments that OpenSSH would read. */
  function Settings(tokens: seq<string>, stopAtHost: bool): seq<Option'> {
    if tokens == [] then [] else
    match HeadOf(tokens, stopAtHost)
    case End => []
    case Broken => []
    case Flags => Settings(tokens[1..], stopAtHost)
    case Setting(option, _, size) => [option] + Settings(tokens[size..], stopAtHost)
  }

  /** Options the guarded prefix owns; a caller's are dropped. */
  predicate Dropped(sh: Shell, o: Option') {
    Owned(o.letter) || (o.letter == 'o' && SocketKeyword(sh.keyword(o.argument)))
  }

  /** Options that would change endpoint, identity or authentication; a caller's are refused. */
  predicate Denied(sh: Shell, o: Option') {
    Refused(o.letter) || (o.letter == 'o' && ForbiddenKeyword(sh.keyword(o.argument)))
  }

  // ------------------------------------------------------------- sanitizing

  function Append(head: seq<string>, tail: Option<seq<string>>): Option<seq<string>> {
    if tail.None? then None else Some(head + tail.value)
  }

  /** `_sanitize_caller_ssh_options`; `None` where it raises. */
  function Sanitize(sh: Shell, tokens: seq<string>, stopAtHost: bool): Option<seq<string>> {
    if tokens == [] then Some([]) else
    match HeadOf(tokens, stopAtHost)
    case End => Some(tokens)
    case Broken => None
    case Flags => Append([tokens[0]], Sanitize(sh, tokens[1..], stopAtHost))
    case Setting(option, flags, size) =>
      if Owned(option.letter) then Append(FlagToken(flags), Sanitize(sh, tokens[size..], stopAtHost))
      else if Denied(sh, option) then None
      else if Dropped(sh, option) then Append(FlagToken(flags), Sanitize(sh, tokens[size..], stopAtHost))
      else Append(tokens[..size], Sanitize(sh, tokens[size..], stopAtHost))
  }

  /** The flag letters before a dropped option survive as a cluster of their own. */
  function FlagToken(flags: string): seq<string> { if flags == "" then [] else ["-" + flags] }

  /** The options a list is left with once the owned ones are taken out. */
  function Without(sh: Shell, options: seq<Option'>): seq<Option'> {
    if options == [] then []
    else (if Dropped(sh, options[0]) then [] else [options[0]]) + Without(sh, options[1..])
  }

  lemma FlagCluster(flags: string, rest: seq<string>, stopAtHost: bool)
    requires flags != "" && Scan(flags, TakesArgument) == |flags| && flags[0] != '-'
    ensures HeadOf(["-" + flags] + rest, stopAtHost) == Flags
  {
    hide TakesArgument;
    var token := "-" + flags;
    assert token[1..] == flags;
    assert token != "--" && token != "-";
  }

  lemma {:induction false} ScanPrefix(cluster: string, takes: char -> bool)
    ensures Scan(cluster[..Scan(cluster, takes)], takes) == Scan(cluster, takes)
  {
    if cluster != "" && !takes(cluster[0]) {
      ScanPrefix(cluster[1..], takes);
      var i := Scan(cluster, takes);
      assert cluster[..i][1..] == cluster[1..][..i - 1];
    }
  }

  /** Flags in front of an option form a cluster that takes no argument and is no long option. */
  lemma SettingFlags(tokens: seq<string>, stopAtHost: bool)
    requires tokens != [] && HeadOf(tokens, stopAtHost).Setting?
    ensures var flags := HeadOf(tokens, stopAtHost).flags;
      Scan(flags, TakesArgument) == |flags| && (flags != "" ==> flags[0] != '-')
  {
    hide TakesArgument;
    ScanPrefix(tokens[0][1..], TakesArgument);
  }

  /** The head of a list depends only on the tokens it takes. */
  lemma HeadStands(tokens: seq<string>, size: nat, rest: seq<string>, stopAtHost: bool)
    requires tokens != [] && HeadOf(tokens, stopAtHost).Setting? && size == HeadOf(tokens, stopAtHost).size
    ensures HeadOf(tokens[..size] + rest, stopAtHost) == HeadOf(tokens, stopAtHost)
  {
    hide TakesArgument;
  }

  lemma FlagsStand(tokens: seq<string>, rest: seq<string>, stopAtHost: bool)
    requires tokens != [] && HeadOf(tokens, stopAtHost).Flags?
    ensures HeadOf([tokens[0]] + rest, stopAtHost).Flags?
  {
    hide TakesArgument;
  }

  lemma EndStands(tokens: seq<string>, stopAtHost: bool)
    requires tokens != [] && HeadOf(tokens, stopAtHost).End?
    ensures Settings(tokens, stopAtHost) == []
  {
  }

  /**
    Sanitizing removes exactly the options the guarded prefix owns: what OpenSSH reads in the result
    is what it reads in the input without them, nothing in it is refused, and a second pass changes
    nothing.
  */
  lemma {:induction false} SanitizeMeaning(sh: Shell, tokens: seq<string>, stopAtHost: bool)
    requires Sanitize(sh, tokens, stopAtHost).Some?
    ensures Cleaned(sh, tokens, Sanitize(sh, tokens, stopAtHost).value, stopAtHost)
    decreases |tokens|
  {
    hide TakesArgument, ForbiddenKeyword, SocketKeyword, Owned, Refused, Scan;
    if tokens != [] {
      var out := Sanitize(sh, tokens, stopAtHost).value;
      match HeadOf(tokens, stopAtHost)
      case End => EndStands(tokens, stopAtHost);
      case Flags =>
        var tail := Sanitize(sh, tokens[1..], stopAtHost).value;
        SanitizeMeaning(sh, tokens[1..], stopAtHost);
        FlagsStand(tokens, tail, stopAtHost);
        assert out[1..] == tail;
      case Setting(option, flags, size) =>
        var tail := Sanitize(sh, tokens[size..], stopAtHost).value;
        SanitizeMeaning(sh, tokens[size..], stopAtHost);
        SettingMeaning(sh, tokens, stopAtHost, tail);
    }
  }

  /** What one sanitized list must satisfy with respect to its source. */
  ghost predicate Cleaned(sh: Shell, tokens: seq<string>, out: seq<string>, stopAtHost: bool) {
    && Settings(out, stopAtHost) == Without(sh, Settings(tokens, stopAtHost))
    && (forall o | o in Settings(out, stopAtHost) :: !Dropped(sh, o) && !Denied(sh, o))
    && Sanitize(sh, out, stopAtHost) == Some(out)
  }

  lemma SettingMeaning(sh: Shell, tokens: seq<string>, stopAtHost: bool, tail: seq<string>)
    requires tokens != [] && HeadOf(tokens, stopAtHost).Setting?
    requires var h := HeadOf(tokens, stopAtHost);
      && Sanitize(sh, tokens[h.size..], stopAtHost) == Some(tail) && Sanitize(sh, tokens, stopAtHost).Some?
      && Cleaned(sh, tokens[h.size..], tail, stopAtHost)
    ensures Cleaned(sh, tokens, Sanitize(sh, tokens, stopAtHost).value, stopAtHost)
  {
    hide TakesArgument, ForbiddenKeyword, SocketKeyword, Owned, Refused, Scan, HeadOf, Settings, Without;
    var h := HeadOf(tokens, stopAtHost);
    var out := Sanitize(sh, tokens, stopAtHost).value;
    SettingsWithout(sh, tokens, stopAtHost);
    if Dropped(sh, h.option) {
      SettingFlags(tokens, stopAtHost);
      if h.flags == "" {
        assert out == tail;
      } else {
        FlagCluster(h.flags, tail, stopAtHost);
        assert out == ["-" + h.flags] + tail && out[1..] == tail;
        SettingsStep(out, stopAtHost);
      }
    } else {
      HeadStands(tokens, h.size, tail, stopAtHost);
      assert out == tokens[..h.size] + tail && out[h.size..] == tail && out[..h.size] == tokens[..h.size];
      SettingsStep(out, stopAtHost);
    }
  }

  lemma SettingsStep(tokens: seq<string>, stopAtHost: bool)
    requires tokens != []
    ensures HeadOf(tokens, stopAtHost).Flags? ==> Settings(tokens, stopAtHost) == Settings(tokens[1..], stopAtHost)
    ensures var h := HeadOf(tokens, stopAtHost);
      h.Setting? ==> Settings(tokens, stopAtHost) == [h.option] + Settings(tokens[h.size..], stopAtHost)
  {
    hide HeadOf;
  }

  /** What remains of a list that starts with an option. */
  lemma SettingsWithout(sh: Shell, tokens: seq<string>, stopAtHost: bool)
    requires tokens != [] && HeadOf(tokens, stopAtHost).Setting?
    ensures var h := HeadOf(tokens, stopAtHost);
      Without(sh, Settings(tokens, stopAtHost))
        == (if Dropped(sh, h.option) then [] else [h.option]) + Without(sh, Settings(tokens[h.size..], stopAtHost))
  {
    hide HeadOf, Dropped;
    var h := HeadOf(tokens, stopAtHost);
    assert ([h.option] + Settings(tokens[h.size..], stopAtHost))[1..] == Settings(tokens[h.size..], stopAtHost);
  }

  /** No option lacks its argument. */
  predicate Complete(tokens: seq<string>, stopAtHost: bool) {
    if tokens == [] then true else
    var h := HeadOf(tokens, stopAtHost);
    if h.Broken? then false
    else if h.End? then true
    else if h.Flags? then Complete(tokens[1..], stopAtHost)
    else Complete(tokens[h.size..], stopAtHost)
  }

  /** Exactly the complete lists without a refused option are accepted. */
  lemma {:induction false} SanitizeAcceptsIff(sh: Shell, tokens: seq<string>, stopAtHost: bool)
    ensures Sanitize(sh, tokens, stopAtHost).Some? <==>
      Complete(tokens, stopAtHost) && forall o | o in Settings(tokens, stopAtHost) :: Owned(o.letter) || !Denied(sh, o)
    decreases |tokens|
  {
    hide HeadOf, Denied, Dropped, Owned;
    if tokens != [] {
      var h := HeadOf(tokens, stopAtHost);
      if h.Flags? {
        SanitizeAcceptsIff(sh, tokens[1..], stopAtHost);
      } else if h.Setting? {
        SanitizeAcceptsIff(sh, tokens[h.size..], stopAtHost);
      }
    }
  }

  /** The letter loop over one cluster. */
  method ScanCluster(cluster: string) returns (i: nat)
    ensures i == Scan(cluster, TakesArgument)
  {
    hide TakesArgument;
    i := 0;
    while i < |cluster| && !TakesArgument(cluster[i])
      invariant 0 <= i <= |cluster| && forall j | 0 <= j < i :: !TakesArgument(cluster[j])
    {
      i := i + 1;
    }
    ScanIs(cluster, TakesArgument, i);
  }

  lemma {:induction false} ScanIs(cluster: string, takes: char -> bool, i: nat)
    requires i <= |cluster| && (i < |cluster| ==> takes(cluster[i])) && forall j | 0 <= j < i :: !takes(cluster[j])
    ensures Scan(cluster, takes) == i
  {
    if i > 0 { ScanIs(cluster[1..], takes, i - 1); }
  }

  /** One step of the loop: a piece is emitted and the tokens behind it remain. */
  lemma Emits(done: seq<string>, piece: seq<string>, whole: Option<seq<string>>, here: Option<seq<string>>, rest: Option<seq<string>>)
    requires whole == Append(done, here) && here == Append(piece, rest)
    ensures whole == Append(done + piece, rest)
  {
    if rest.Some? { assert done + (piece + rest.value) == (done + piece) + rest.value; }
  }

  /** The sanitizing loop of the source. */
  method SanitizeTokens(sh: Shell, tokens: seq<string>, stopAtHost: bool) returns (r: Option<seq<string>>)
    ensures r == Sanitize(sh, tokens, stopAtHost)
  {
    hide TakesArgument, ForbiddenKeyword, SocketKeyword, Owned, Refused, Append, Scan;
    var sanitized: seq<string> := [];
    var index := 0;
    ghost var whole := Sanitize(sh, tokens, stopAtHost);
    assert tokens[0..] == tokens;
    assert whole == Append([], whole) by { AppendNothing(whole); }
    while index < |tokens|
      invariant 0 <= index <= |tokens|
      invariant whole == Append(sanitized, Sanitize(sh, tokens[index..], stopAtHost))
    {
      var token := tokens[index];
      ghost var here := tokens[index..];
      assert here[0] == token && here[1..] == tokens[index + 1..];
      if token == "--" || (Bare(token) && stopAtHost) {
        AppendSome(sanitized, here);
        return Some(sanitized + tokens[index..]);
      }
      var piece, size := [token], 1;
      if !Bare(token) && !Long(token) {
        var cluster := token[1..];
        var i := ScanCluster(cluster);
        if i < |cluster| {
          size := if i + 1 < |cluster| then 1 else 2;
          if index + size > |tokens| {
            AppendRefused(sanitized);
            return None;
          }
          var option := Option'(cluster[i], if size == 1 then cluster[i + 1..] else tokens[index + 1]);
          assert HeadOf(here, stopAtHost) == Setting(option, cluster[..i], size);
          if !Owned(option.letter) && Denied(sh, option) {
            AppendRefused(sanitized);
            return None;
          }
          piece := if Dropped(sh, option) then FlagToken(cluster[..i]) else tokens[index..index + size];
          assert here[..size] == tokens[index..index + size];
        }
      }
      assert here[size..] == tokens[index + size..];
      Emits(sanitized, piece, whole, Sanitize(sh, here, stopAtHost), Sanitize(sh, here[size..], stopAtHost));
      sanitized := sanitized + piece;
      index := index + size;
    }
    assert tokens[index..] == [];
    AppendSome(sanitized, []);
    return Some(sanitized);
  }

  lemma AppendNothing(tail: Option<seq<string>>)
    ensures Append([], tail) == tail
  {
    if tail.Some? { assert [] + tail.value == tail.value; }
  }

  lemma AppendSome(head: seq<string>, tail: seq<string>)
    ensures Append(head, Some(tail)) == Some(head + tail) && (tail == [] ==> Append(head, Some(tail)) == Some(head))
  {
    if tail == [] { assert head + tail == head; }
  }

  lemma AppendRefused(head: seq<string>)
    ensures Append(head, None) == None
  {
  }

  // ---------------------------------------------------------- the destination

  /** `_ssh_destination_from_argv`, behind the executable. */
  function Destination(tokens: seq<string>): Option<string> {
    if tokens == [] then None else
    var token := tokens[0];
    if token == "--" then if |tokens| > 1 then Some(tokens[1]) else None
    else if Bare(token) then Some(token)
    else if Long(token) then Destination(tokens[1..])
    else
      var i := Scan(token[1..], TakesArgument);
      if i + 1 == |token| - 1 then if |tokens| == 1 then None else Destination(tokens[2..])
      else Destination(tokens[1..])
  }

  /** A prefix that is nothing but complete options. */
  predicate OptionsOnly(tokens: seq<string>) {
    if tokens == [] then true else
    var h := HeadOf(tokens, true);
    if h.Setting? then OptionsOnly(tokens[h.size..])
    else h.Flags? && OptionsOnly(tokens[1..])
  }

  lemma DestinationByHead(tokens: seq<string>)
    requires tokens != []
    ensures var h := HeadOf(tokens, true);
      && (h.Broken? ==> Destination(tokens).None?)
      && (h.Flags? ==> Destination(tokens) == Destination(tokens[1..]))
      && (h.Setting? ==> Destination(tokens) == Destination(tokens[h.size..]))
  {
    hide TakesArgument;
  }

  lemma {:induction false} DestinationBehind(prefix: seq<string>, tokens: seq<string>)
    requires OptionsOnly(prefix)
    ensures Destination(prefix + tokens) == Destination(tokens)
    decreases |prefix|
  {
    hide TakesArgument, Destination, HeadOf;
    if prefix == [] {
      assert prefix + tokens == tokens;
    } else {
      var all := prefix + tokens;
      match HeadOf(prefix, true)
      case Setting(_, _, size) =>
        assert prefix[..size] + (prefix[size..] + tokens) == all;
        HeadStands(prefix, size, prefix[size..] + tokens, true);
        DestinationByHead(all);
        assert all[size..] == prefix[size..] + tokens;
        DestinationBehind(prefix[size..], tokens);
      case Flags =>
        assert [prefix[0]] + (prefix[1..] + tokens) == all;
        FlagsStand(prefix, prefix[1..] + tokens, true);
        DestinationByHead(all);
        assert all[1..] == prefix[1..] + tokens;
        DestinationBehind(prefix[1..], tokens);
    }
  }

  /** Sanitizing a direct SSH command leaves its destination alone. */
  lemma {:induction false} DestinationKept(sh: Shell, tokens: seq<string>)
    requires Sanitize(sh, tokens, true).Some?
    ensures Destination(Sanitize(sh, tokens, true).value) == Destination(tokens)
    decreases |tokens|
  {
    hide TakesArgument, ForbiddenKeyword, SocketKeyword, Owned, Refused, Scan, Destination, HeadOf;
    if tokens != [] {
      DestinationByHead(tokens);
      var out := Sanitize(sh, tokens, true).value;
      match HeadOf(tokens, true)
      case End =>
      case Flags =>
        var tail := Sanitize(sh, tokens[1..], true).value;
        DestinationKept(sh, tokens[1..]);
        FlagsStand(tokens, tail, true);
        DestinationByHead(out);
        assert out[1..] == tail;
      case Setting(option, flags, size) =>
        var tail := Sanitize(sh, tokens[size..], true).value;
        DestinationKept(sh, tokens[size..]);
        SettingFlags(tokens, true);
        if !Dropped(sh, option) {
          HeadStands(tokens, size, tail, true);
          DestinationByHead(out);
          assert out == tokens[..size] + tail && out[size..] == tail;
        } else if flags == "" {
          assert out == tail;
        } else {
          FlagCluster(flags, tail, true);
          DestinationByHead(out);
          assert out == ["-" + flags] + tail && out[1..] == tail;
        }
    }
  }

  // ------------------------------------------------------- guarded commands

  /** The caller's tokens without a guarded prefix that is already there. */
  function Stripped(safe: seq<string>, tokens: seq<string>): seq<string> {
    if |safe| <= |tokens| && tokens[..|safe|] == safe then tokens[|safe|..] else tokens
  }

  predicate IsSsh(name: string) { name == "ssh" || name == Ssh }

  /** `_reuse_only_ssh_command`: the guarded prefix in front of the sanitized tokens. */
  function Guard(sh: Shell, safe: seq<string>, command: string): Option<string> {
    var tokens := sh.split(command);
    if tokens.None? || tokens.value == [] || !IsSsh(tokens.value[0]) then None else
    var rest := Sanitize(sh, Stripped(safe, tokens.value[1..]), false);
    if rest.None? then None else Some(sh.join([Ssh] + safe + rest.value))
  }

  /** A remote shell that starts with the guarded prefix and overrides none of it later. */
  ghost predicate Guarded(sh: Shell, safe: seq<string>, command: string) {
    exists rest ::
      && sh.split(command) == Some([Ssh] + safe + rest)
      && (forall o | o in Settings(rest, false) :: !Dropped(sh, o) && !Denied(sh, o))
  }

  /** Guarding yields a guarded command, and guarding that again changes nothing. */
  lemma GuardMeaning(sh: Shell, safe: seq<string>, command: string)
    requires Lawful(sh) && Guard(sh, safe, command).Some?
    ensures var guarded := Guard(sh, safe, command).value;
      Guarded(sh, safe, guarded) && Guard(sh, safe, guarded) == Some(guarded) && guarded != "" && guarded[0] == '/' && !Dashed(command)
  {
    hide Sanitize, Settings, Denied, Dropped, Lawful, Dashed;
    var tokens := sh.split(command).value;
    var given := Stripped(safe, tokens[1..]);
    SanitizeMeaning(sh, given, false);
    var rest := Sanitize(sh, given, false).value;
    Rejoins(sh, safe, rest);
    Unwraps(sh, safe, rest);
    LeadsWithSsh(sh, command);
  }

  lemma Rejoins(sh: Shell, safe: seq<string>, rest: seq<string>)
    requires Lawful(sh)
    ensures var guarded := sh.join([Ssh] + safe + rest);
      sh.split(guarded) == Some([Ssh] + safe + rest) && guarded != "" && guarded[0] == '/'
  {
  }

  lemma Unwraps(sh: Shell, safe: seq<string>, rest: seq<string>)
    requires sh.split(sh.join([Ssh] + safe + rest)) == Some([Ssh] + safe + rest) && Sanitize(sh, rest, false) == Some(rest)
    ensures Guard(sh, safe, sh.join([Ssh] + safe + rest)) == Some(sh.join([Ssh] + safe + rest))
  {
    hide Sanitize;
    var all := [Ssh] + safe + rest;
    assert all[0] == Ssh && all[1..] == safe + rest && (safe + rest)[..|safe|] == safe && (safe + rest)[|safe|..] == rest;
  }

  lemma LeadsWithSsh(sh: Shell, command: string)
    requires Lawful(sh) && sh.split(command).Some? && sh.split(command).value != [] && IsSsh(sh.split(command).value[0])
    ensures !Dashed(command)
  {
    assert !Dashed(sh.split(command).value[0]);
  }

  /** A hardened direct SSH command has the guarded prefix, the caller's destination, and is a fixed point. */
  lemma DirectSsh(sh: Shell, safe: seq<string>, tokens: seq<string>)
    requires OptionsOnly(safe) && Sanitize(sh, Stripped(safe, tokens), true).Some?
    ensures var rest := Sanitize(sh, Stripped(safe, tokens), true).value;
      && Destination(safe + rest) == Destination(tokens)
      && Sanitize(sh, Stripped(safe, safe + rest), true) == Some(rest)
      && (forall o | o in Settings(rest, true) :: !Dropped(sh, o) && !Denied(sh, o))
  {
    hide Sanitize, Settings, Destination, Denied, Dropped, OptionsOnly;
    var given := Stripped(safe, tokens);
    var rest := Sanitize(sh, given, true).value;
    SanitizeMeaning(sh, given, true);
    DestinationKept(sh, given);
    DestinationBehind(safe, rest);
    assert (safe + rest)[..|safe|] == safe && (safe + rest)[|safe|..] == rest;
    if given != tokens {
      assert tokens == safe + given;
      DestinationBehind(safe, given);
    }
  }
}
