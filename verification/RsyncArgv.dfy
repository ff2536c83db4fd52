/**
  Hardening of an rsync command line: every remote-shell transport in it is replaced by its
  guarded form, and nothing else is touched. The source has two parsers of the same argv, one
  that rewrites and one that lists path operands; both are modelled and compared.
*/
module RsyncArgv {
  import opened Options
  import opened SshOptions
  import Shlex

  const Rsync := "/usr/bin/rsync"

  /** Short options that consume the rest of their token or the following element. */
  predicate ShortTakes(c: char) { c in {'@', 'B', 'e', 'f', 'M', 'T'} }

  /** Long options whose argument is the following element when none is attached. */
  predicate LongTakes(name: string) {
    name in {
      "address", "backup-dir", "block-size", "bwlimit", "cc", "checksum-choice", "checksum-seed", "chmod", "chown",
      "compare-dest", "compress-choice", "compress-level", "compress-threads", "config", "contimeout", "copy-as",
      "copy-dest", "debug", "dparam", "early-input", "exclude", "exclude-from", "files-from", "filter", "groupmap",
      "iconv", "include", "include-from", "info", "link-dest", "log-file", "log-file-format", "log-format", "max-alloc",
      "max-delete", "max-size", "min-size", "modify-window", "only-write-batch", "out-format", "outbuf", "partial-dir",
      "password-file", "port", "protocol", "read-batch", "remote-option", "rsh", "rsync-path", "skip-compress",
      "sockopts", "stderr", "stop-after", "stop-at", "suffix", "temp-dir", "time-limit", "timeout", "usermap",
      "write-batch", "zc", "zl", "zt"}
  }

  predicate HasEquals(token: string) { '=' in token }

  /** A long option that takes the following element. */
  predicate LongNeedsNext(token: string) { Long(token) && !HasEquals(token[2..]) && LongTakes(token[2..]) }

  // ------------------------------------------------------------ operand parser

  /** `_rsync_operands_from_argv`, behind the executable. */
  function Operands(tokens: seq<string>): seq<string> {
    if tokens == [] then [] else
    var token := tokens[0];
    if token == "--" then tokens[1..]
    else if Bare(token) then [token] + Operands(tokens[1..])
    else if OperandSkips(token) then if |tokens| == 1 then [] else Operands(tokens[2..])
    else Operands(tokens[1..])
  }

  /** Whether the operand parser passes over the following element. */
  predicate OperandSkips(token: string)
    requires !Bare(token) && token != "--"
  {
    if Long(token) then LongNeedsNext(token)
    else
      var cluster := token[1..];
      Scan(cluster, ShortTakes) + 1 == |cluster|
  }

  // --------------------------------------------------------- the rewriting parser

  const RshEquals := "--rsh="

  /** What the rewriting parser sees at one place of the command line. */
  datatype Item =
    | Terminator                               // `--`: everything from here on is data
    | Plain                                    // one token, left alone
    | WithData                                 // an option and the element it consumes, left alone
    | Separate                                 // a transport in the following element
    | Attached(prefix: string, command: string) // a transport behind its option in the same token
    | Lacking                                  // the option's argument is missing

  predicate StartsRsh(token: string) { |token| >= 6 && token[..6] == RshEquals }

  function Next(tokens: seq<string>, item: Item): Item { if |tokens| == 1 then Lacking else item }

  function ItemAt(tokens: seq<string>): (item: Item)
    requires tokens != []
    ensures item.WithData? || item.Separate? ==> |tokens| >= 2
  {
    var token := tokens[0];
    if token == "--" then Terminator
    else if token == "-e" || token == "--rsh" then Next(tokens, Separate)
    else if StartsRsh(token) then Attached(RshEquals, token[6..])
    else if Long(token) then if LongNeedsNext(token) then Next(tokens, WithData) else Plain
    else if Dashed(token) then
      var cluster := token[1..];
      var i := Scan(cluster, ShortTakes);
      if i == |cluster| then Plain
      else if cluster[i] != 'e' then if i + 1 == |cluster| then Next(tokens, WithData) else Plain
      else
        var equals := if i + 1 < |cluster| && cluster[i + 1] == '=' then 1 else 0;
        if i + 1 + equals == |cluster| then Next(tokens, Separate)
        else Attached(token[..i + 2 + equals], token[i + 2 + equals..])
    else Plain
  }

  /** The short cluster that ends in a bare `e=`: the rewriter consumes the next element, the operand parser does not. */
  predicate BareEquals(token: string) {
    && token != "-e" && !Long(token) && Dashed(token)
    && var cluster := token[1..];
    var i := Scan(cluster, ShortTakes);
    i + 2 == |cluster| && cluster[i] == 'e' && cluster[i + 1] == '='
  }

  /** The rewritten tail of the command line, `None` where the source raises. */
  function Harden(sh: Shell, safe: seq<string>, tokens: seq<string>): Option<seq<string>> {
    if tokens == [] then Some([]) else
    match ItemAt(tokens)
    case Terminator => Some(tokens)
    case Lacking => None
    case Plain => Append([tokens[0]], Harden(sh, safe, tokens[1..]))
    case WithData => Append(tokens[..2], Harden(sh, safe, tokens[2..]))
    case Separate =>
      var guarded := Guard(sh, safe, tokens[1]);
      if guarded.None? then None else Append([tokens[0], guarded.value], Harden(sh, safe, tokens[2..]))
    case Attached(prefix, command) =>
      var guarded := Guard(sh, safe, command);
      if guarded.None? then None else Append([prefix + guarded.value], Harden(sh, safe, tokens[1..]))
  }

  /** Whether the command line names a transport of its own. */
  predicate HasTransport(tokens: seq<string>) {
    if tokens == [] then false else
    var item := ItemAt(tokens);
    if item.Separate? || item.Attached? then true
    else if item.Plain? then HasTransport(tokens[1..])
    else if item.WithData? then HasTransport(tokens[2..])
    else false
  }

  /** `_harden_raw_transport_argv` for rsync, behind the executable. */
  function HardenRsync(sh: Shell, safe: seq<string>, tokens: seq<string>): Option<seq<string>> {
    var rewritten := Harden(sh, safe, tokens);
    if HasTransport(tokens) then rewritten
    else
      var guarded := Guard(sh, safe, "ssh");
      if guarded.None? then None else Append(["-e", guarded.value], rewritten)
  }

  /** The transports of a command line. */
  function Transports(tokens: seq<string>): seq<string> {
    if tokens == [] then [] else
    match ItemAt(tokens)
    case Plain => Transports(tokens[1..])
    case WithData => Transports(tokens[2..])
    case Separate => [tokens[1]] + Transports(tokens[2..])
    case Attached(_, command) => [command] + Transports(tokens[1..])
    case _ => []
  }

  // ------------------------------------------------------------ reading back

  lemma PlainStands(tokens: seq<string>, rest: seq<string>)
    requires tokens != [] && ItemAt(tokens).Plain?
    ensures ItemAt([tokens[0]] + rest).Plain?
  {
    hide ShortTakes, LongTakes, Scan;
  }

  lemma PairStands(tokens: seq<string>, argument: string, rest: seq<string>)
    requires tokens != [] && (ItemAt(tokens).WithData? || ItemAt(tokens).Separate?)
    ensures ItemAt([tokens[0], argument] + rest) == ItemAt(tokens)
  {
    hide ShortTakes, LongTakes, Scan;
  }

  lemma {:induction false} ScanExtends(cluster: string, other: string, takes: char -> bool)
    requires Scan(cluster, takes) < |cluster| && Scan(cluster, takes) < |other|
    requires other[..Scan(cluster, takes) + 1] == cluster[..Scan(cluster, takes) + 1]
    ensures Scan(other, takes) == Scan(cluster, takes)
  {
    var i := Scan(cluster, takes);
    assert forall j | 0 <= j <= i :: other[j] == other[..i + 1][j] == cluster[j];
    ScanIs(other, takes, i);
  }

  /** A rewritten attached transport is read back as the same option with the new command. */
  lemma AttachedStands(tokens: seq<string>, command: string, rest: seq<string>)
    requires tokens != [] && ItemAt(tokens).Attached? && command != "" && command[0] == '/'
    ensures ItemAt([ItemAt(tokens).prefix + command] + rest) == Attached(ItemAt(tokens).prefix, command)
  {
    hide ShortTakes, LongTakes, Scan, ItemAt;
    var made := ItemAt(tokens).prefix + command;
    if StartsRsh(tokens[0]) { RshStands(tokens, command, rest); } else { ClusterStands(tokens, command, rest); }
  }

  lemma RshStands(tokens: seq<string>, command: string, rest: seq<string>)
    requires tokens != [] && ItemAt(tokens).Attached? && StartsRsh(tokens[0]) && command != ""
    ensures ItemAt([ItemAt(tokens).prefix + command] + rest) == Attached(ItemAt(tokens).prefix, command)
  {
    hide ShortTakes, LongTakes, Scan;
    var made := RshEquals + command;
    assert made[..6] == RshEquals && made[6..] == command && made != "--rsh" && made != "-e";
  }

  lemma ClusterStands(tokens: seq<string>, command: string, rest: seq<string>)
    requires tokens != [] && ItemAt(tokens).Attached? && !StartsRsh(tokens[0]) && command != "" && command[0] == '/'
    ensures ItemAt([ItemAt(tokens).prefix + command] + rest) == Attached(ItemAt(tokens).prefix, command)
  {
    hide ShortTakes, LongTakes, Scan;
    var token, prefix := tokens[0], ItemAt(tokens).prefix;
    var made := prefix + command;
    var cluster, i := token[1..], Scan(token[1..], ShortTakes);
    assert made[1..][..i + 1] == cluster[..i + 1] by {
      forall j | 0 <= j <= i ensures made[1..][j] == cluster[j] { assert prefix[j + 1] == token[j + 1]; }
    }
    ScanExtends(cluster, made[1..], ShortTakes);
    assert made[0] == token[0] && made[1] == token[1] && |made| > |prefix| >= 2;
    assert made[|prefix|..] == command && made[..|prefix|] == prefix;
    assert |prefix| == i + 3 ==> made[i + 2] == '=';
    assert |prefix| == i + 2 ==> made[i + 2] == '/';
    assert made[1..][i + 1] == made[i + 2] && made[1..][i] == cluster[i];
  }

  /** Each item of a rewritten command line is the item it was before. */
  lemma {:induction false} HardenMeaning(sh: Shell, safe: seq<string>, tokens: seq<string>)
    requires Lawful(sh) && Harden(sh, safe, tokens).Some?
    ensures var out := Harden(sh, safe, tokens).value;
      && |out| == |tokens| && Harden(sh, safe, out) == Some(out) && HasTransport(out) == HasTransport(tokens)
      && (forall c | c in Transports(out) :: Guarded(sh, safe, c))
    decreases |tokens|
  {
    hide ItemAt, Guard, Lawful, Guarded;
    if tokens != [] {
      var out := Harden(sh, safe, tokens).value;
      match ItemAt(tokens)
      case Terminator =>
      case Plain =>
        var tail := Harden(sh, safe, tokens[1..]).value;
        HardenMeaning(sh, safe, tokens[1..]);
        PlainStands(tokens, tail);
        assert out[1..] == tail;
      case WithData =>
        var tail := Harden(sh, safe, tokens[2..]).value;
        HardenMeaning(sh, safe, tokens[2..]);
        PairStands(tokens, tokens[1], tail);
        assert out == [tokens[0], tokens[1]] + tail && out[2..] == tail && out[..2] == tokens[..2];
      case Separate =>
        var tail := Harden(sh, safe, tokens[2..]).value;
        HardenMeaning(sh, safe, tokens[2..]);
        GuardMeaning(sh, safe, tokens[1]);
        PairStands(tokens, Guard(sh, safe, tokens[1]).value, tail);
        assert out[2..] == tail;
      case Attached(prefix, command) =>
        var tail := Harden(sh, safe, tokens[1..]).value;
        HardenMeaning(sh, safe, tokens[1..]);
        GuardMeaning(sh, safe, command);
        AttachedStands(tokens, Guard(sh, safe, command).value, tail);
        assert out[1..] == tail;
    }
  }

  /**
    Hardening an rsync command line: every transport it then has is guarded and there is at least
    one, and hardening it again changes nothing.
  */
  lemma HardenedIsGuarded(sh: Shell, safe: seq<string>, tokens: seq<string>)
    requires Lawful(sh) && HardenRsync(sh, safe, tokens).Some?
    ensures var out := HardenRsync(sh, safe, tokens).value;
      && HasTransport(out) && (forall c | c in Transports(out) :: Guarded(sh, safe, c))
      && HardenRsync(sh, safe, out) == Some(out)
  {
    hide ItemAt, Guard, Lawful, Guarded, Harden;
    HardenMeaning(sh, safe, tokens);
    if !HasTransport(tokens) {
      var guarded, rest := Guard(sh, safe, "ssh").value, Harden(sh, safe, tokens).value;
      var out := ["-e", guarded] + rest;
      GuardMeaning(sh, safe, "ssh");
      Inserted(sh, safe, guarded, rest);
    }
  }

  lemma Inserted(sh: Shell, safe: seq<string>, guarded: string, rest: seq<string>)
    requires Guard(sh, safe, guarded) == Some(guarded) && Harden(sh, safe, rest) == Some(rest)
    ensures var out := ["-e", guarded] + rest;
      HasTransport(out) && Transports(out) == [guarded] + Transports(rest) && Harden(sh, safe, out) == Some(out)
  {
    hide Guard, ShortTakes, LongTakes, Scan;
    var out := ["-e", guarded] + rest;
    assert out[2..] == rest;
  }

  /** No option lacks its argument before the terminator. */
  predicate Supplied(tokens: seq<string>) {
    if tokens == [] then true else
    var item := ItemAt(tokens);
    if item.Lacking? then false
    else if item.Terminator? then true
    else if item.Plain? || item.Attached? then Supplied(tokens[1..])
    else Supplied(tokens[2..])
  }

  /** Exactly the supplied command lines whose transports can all be guarded are accepted. */
  lemma {:induction false} HardenAcceptsIff(sh: Shell, safe: seq<string>, tokens: seq<string>)
    ensures Harden(sh, safe, tokens).Some? <==> Supplied(tokens) && forall c | c in Transports(tokens) :: Guard(sh, safe, c).Some?
    decreases |tokens|
  {
    hide ItemAt, Guard;
    if tokens != [] {
      var item := ItemAt(tokens);
      if item.Plain? || item.Attached? {
        HardenAcceptsIff(sh, safe, tokens[1..]);
      } else if item.WithData? || item.Separate? {
        HardenAcceptsIff(sh, safe, tokens[2..]);
      }
    }
  }

  // ------------------------------------------------------------- untouched text

  /** Whether an element is, or carries, a transport. */
  predicate TransportAt(tokens: seq<string>, j: nat) {
    if tokens == [] then false else
    var item := ItemAt(tokens);
    if item.Attached? then j == 0 || (j > 0 && TransportAt(tokens[1..], j - 1))
    else if item.Plain? then j > 0 && TransportAt(tokens[1..], j - 1)
    else if item.Separate? then j == 1 || (j > 1 && TransportAt(tokens[2..], j - 2))
    else if item.WithData? then j > 1 && TransportAt(tokens[2..], j - 2)
    else false
  }

  lemma {:induction false} HardenKeepsLength(sh: Shell, safe: seq<string>, tokens: seq<string>)
    requires Harden(sh, safe, tokens).Some?
    ensures |Harden(sh, safe, tokens).value| == |tokens|
    decreases |tokens|
  {
    hide ItemAt, Guard;
    if tokens != [] {
      var item := ItemAt(tokens);
      if item.Plain? || item.Attached? {
        HardenKeepsLength(sh, safe, tokens[1..]);
      } else if item.WithData? || item.Separate? {
        HardenKeepsLength(sh, safe, tokens[2..]);
      }
    }
  }

  /** Option data, operands and everything behind `--` stay as they were. */
  lemma {:induction false} OnlyTransportsChange(sh: Shell, safe: seq<string>, tokens: seq<string>, j: nat)
    requires Harden(sh, safe, tokens).Some? && j < |tokens| && !TransportAt(tokens, j)
    ensures |Harden(sh, safe, tokens).value| == |tokens| && Harden(sh, safe, tokens).value[j] == tokens[j]
    decreases |tokens|
  {
    hide ItemAt, Guard;
    HardenKeepsLength(sh, safe, tokens);
    match ItemAt(tokens)
    case Terminator =>
    case Plain => if j > 0 { OnlyTransportsChange(sh, safe, tokens[1..], j - 1); }
    case WithData => if j > 1 { OnlyTransportsChange(sh, safe, tokens[2..], j - 2); }
    case Separate => if j > 1 { OnlyTransportsChange(sh, safe, tokens[2..], j - 2); }
    case Attached(_, _) => OnlyTransportsChange(sh, safe, tokens[1..], j - 1);
  }

  // ------------------------------------------------------------- the operands

  /** Wherever a bare `e=` consumes an element, hardening leaves that element as it is. */
  predicate Harmless(sh: Shell, safe: seq<string>, tokens: seq<string>) {
    if tokens == [] then true else
    var item := ItemAt(tokens);
    if item.Plain? || item.Attached? then Harmless(sh, safe, tokens[1..])
    else if item.WithData? then Harmless(sh, safe, tokens[2..])
    else if item.Separate? then
      (BareEquals(tokens[0]) ==> Guard(sh, safe, tokens[1]) == Some(tokens[1])) && Harmless(sh, safe, tokens[2..])
    else true
  }

  /** How the operand parser takes what the rewriter sees as one item. */
  lemma OperandsByItem(tokens: seq<string>)
    requires tokens != []
    ensures var item, token := ItemAt(tokens), tokens[0];
      && (item.Terminator? ==> Operands(tokens) == tokens[1..])
      && (item.Plain? ==> Operands(tokens) == (if Bare(token) then [token] else []) + Operands(tokens[1..]))
      && (item.WithData? ==> Operands(tokens) == Operands(tokens[2..]))
      && (item.Separate? && !BareEquals(token) ==> Operands(tokens) == Operands(tokens[2..]))
      && (item.Separate? && BareEquals(token) && Bare(tokens[1]) && tokens[1] != "--" ==> Operands(tokens) == [tokens[1]] + Operands(tokens[2..]))
      && (item.Attached? ==> Operands(tokens) == Operands(tokens[1..]))
  {
    hide ShortTakes, LongTakes, Scan, Operands, ItemAt, OperandSkips;
    SkipsByItem(tokens);
    OperandsBySkip(tokens);
    if tokens[0] == "--" { assert Operands(tokens) == tokens[1..] by { AfterTerminator(tokens); } }
  }

  lemma AfterTerminator(tokens: seq<string>)
    requires tokens != [] && tokens[0] == "--"
    ensures Operands(tokens) == tokens[1..]
  {
  }

  /** Both parsers pass over the following element in the same places, a bare `e=` apart. */
  lemma SkipsByItem(tokens: seq<string>)
    requires tokens != []
    ensures var item, token := ItemAt(tokens), tokens[0];
      && (item.Terminator? <==> token == "--")
      && (Bare(token) ==> item.Plain?)
      && (!Bare(token) && (item.WithData? || (item.Separate? && !BareEquals(token))) ==> OperandSkips(token))
      && (!Bare(token) && (item.Plain? || item.Attached? || (item.Separate? && BareEquals(token))) ==> !OperandSkips(token))
  {
    hide ShortTakes, LongTakes, Scan;
    RshTakes();
    LetterE();
    assert "-e"[1..] == "e";
    if StartsRsh(tokens[0]) { assert tokens[0][2..][3] == tokens[0][..6][5] == '='; }
  }

  lemma RshTakes()
    ensures LongNeedsNext("--rsh")
  {
    assert "--rsh"[2..] == "rsh";
  }

  lemma LetterE()
    ensures Scan("e", ShortTakes) == 0
  {
    ScanIs("e", ShortTakes, 0);
  }

  lemma OperandsBySkip(tokens: seq<string>)
    requires tokens != []
    ensures !Bare(tokens[0]) && tokens[0] != "--" && OperandSkips(tokens[0]) && |tokens| >= 2 ==> Operands(tokens) == Operands(tokens[2..])
    ensures !Bare(tokens[0]) && tokens[0] != "--" && !OperandSkips(tokens[0]) ==> Operands(tokens) == Operands(tokens[1..])
    ensures Bare(tokens[0]) ==> Operands(tokens) == [tokens[0]] + Operands(tokens[1..])
    ensures |tokens| >= 2 && Bare(tokens[1]) ==> Operands(tokens[1..]) == [tokens[1]] + Operands(tokens[2..])
  {
    hide OperandSkips;
    if |tokens| >= 2 { assert tokens[1..][1..] == tokens[2..]; }
  }

  /**
    The two parsers agree: hardening leaves the independently parsed operands unchanged exactly when
    no bare `e=` swallows an element that hardening would change.
  */
  lemma {:induction false} OperandsKeptIff(sh: Shell, safe: seq<string>, tokens: seq<string>)
    requires Lawful(sh) && Harden(sh, safe, tokens).Some?
    ensures var out := Harden(sh, safe, tokens).value;
      |Operands(out)| == |Operands(tokens)| && (Operands(out) == Operands(tokens) <==> Harmless(sh, safe, tokens))
    decreases |tokens|
  {
    hide ItemAt, Guard, Lawful, Guarded, Operands, BareEquals, Bare;
    if tokens != [] {
      var out := Harden(sh, safe, tokens).value;
      OperandsByItem(tokens);
      OperandsByItem(out);
      match ItemAt(tokens)
      case Terminator =>
      case Plain =>
        var tail := Harden(sh, safe, tokens[1..]).value;
        OperandsKeptIff(sh, safe, tokens[1..]);
        PlainStands(tokens, tail);
        assert out[1..] == tail;
        Cancels(if Bare(tokens[0]) then [tokens[0]] else [], Operands(tail), Operands(tokens[1..]));
      case WithData =>
        var tail := Harden(sh, safe, tokens[2..]).value;
        OperandsKeptIff(sh, safe, tokens[2..]);
        PairStands(tokens, tokens[1], tail);
        assert out == [tokens[0], tokens[1]] + tail && out[2..] == tail;
      case Separate =>
        var tail, guarded := Harden(sh, safe, tokens[2..]).value, Guard(sh, safe, tokens[1]).value;
        OperandsKeptIff(sh, safe, tokens[2..]);
        GuardMeaning(sh, safe, tokens[1]);
        PairStands(tokens, guarded, tail);
        assert out == [tokens[0], guarded] + tail && out[2..] == tail && out[1] == guarded;
        NotDashed(tokens[1]);
        NotDashed(guarded);
        Differs(guarded, tokens[1], Operands(tail), Operands(tokens[2..]));
      case Attached(prefix, command) =>
        var tail, guarded := Harden(sh, safe, tokens[1..]).value, Guard(sh, safe, command).value;
        OperandsKeptIff(sh, safe, tokens[1..]);
        GuardMeaning(sh, safe, command);
        AttachedStands(tokens, guarded, tail);
        assert out[1..] == tail;
    }
  }

  lemma NotDashed(token: string)
    ensures !Dashed(token) ==> Bare(token) && token != "--"
  {
  }

  lemma Cancels(head: seq<string>, a: seq<string>, b: seq<string>)
    ensures head + a == head + b <==> a == b
  {
    assert (head + a)[|head|..] == a && (head + b)[|head|..] == b;
  }

  lemma Differs(x: string, y: string, a: seq<string>, b: seq<string>)
    ensures [x] + a == [y] + b <==> x == y && a == b
  {
    assert ([x] + a)[0] == x && ([y] + b)[0] == y && ([x] + a)[1..] == a && ([y] + b)[1..] == b;
  }

  /** The same for the whole command line, where a transport may have been inserted. */
  lemma RsyncOperandsKeptIff(sh: Shell, safe: seq<string>, tokens: seq<string>)
    requires Lawful(sh) && HardenRsync(sh, safe, tokens).Some?
    ensures Operands(HardenRsync(sh, safe, tokens).value) == Operands(tokens) <==> Harmless(sh, safe, tokens)
  {
    hide Guard, Lawful, Harden, Harmless, ItemAt, Operands;
    OperandsKeptIff(sh, safe, tokens);
    if !HasTransport(tokens) {
      var out := HardenRsync(sh, safe, tokens).value;
      InsertedOperands(out);
      assert out[2..] == Harden(sh, safe, tokens).value;
    }
  }

  lemma InsertedOperands(tokens: seq<string>)
    requires |tokens| >= 2 && tokens[0] == "-e"
    ensures Operands(tokens) == Operands(tokens[2..])
  {
    hide ShortTakes, LongTakes;
    LetterE();
    assert "-e"[1..] == "e";
  }

  /** A plain `ssh` is always guardable. */
  lemma PlainSshIsGuarded(safe: seq<string>, keyword: string -> string)
    ensures Guard(Shlex.Posix(keyword), safe, "ssh").Some?
  {
    Shlex.ReadJoined(["ssh"], []);
    assert Shlex.Join(["ssh"]) == "ssh" by { assert Shlex.AllSafe("ssh"); }
    assert [] + ["ssh"] == ["ssh"];
    assert Stripped(safe, []) == [];
  }

  /**
    The exception is real: with POSIX quoting, `-ae= ssh` in front of any operands is accepted, and its
    `ssh` is rewritten as a transport although the operand parser counts it as a path.
  */
  lemma BareEqualsChangesOperands(safe: seq<string>, keyword: string -> string, paths: seq<string>)
    requires forall p | p in paths :: Bare(p)
    ensures var sh, argv := Shlex.Posix(keyword), ["-ae=", "ssh"] + paths;
      && HardenRsync(sh, safe, argv).Some?
      && Operands(argv) == ["ssh"] + paths
      && Operands(HardenRsync(sh, safe, argv).value) == [Guard(sh, safe, "ssh").value] + paths
      && Guard(sh, safe, "ssh").value != "ssh"
  {
    hide Guard, Operands, Harden, LongTakes;
    var sh, argv := Shlex.Posix(keyword), ["-ae=", "ssh"] + paths;
    var guarded := Guard(sh, safe, "ssh");
    PlainSshIsGuarded(safe, keyword);
    Shlex.PosixIsLawful(keyword);
    GuardMeaning(sh, safe, "ssh");
    BareEqualsItem(argv);
    PlainOperands(sh, safe, paths);
    assert argv[2..] == paths && argv[1] == "ssh";
    BareEqualsRewrites(sh, safe, argv);
    var out := ["-ae=", guarded.value] + paths;
    assert out[2..] == paths && out[1] == guarded.value;
    NotDashed("ssh");
    NotDashed(guarded.value);
    OperandsByItem(argv);
    BareEqualsItem(out);
    OperandsByItem(out);
  }

  lemma BareEqualsItem(tokens: seq<string>)
    requires |tokens| >= 2 && tokens[0] == "-ae="
    ensures ItemAt(tokens) == Separate && BareEquals(tokens[0])
  {
    assert "-ae="[1..] == "ae=";
    ScanIs("ae=", ShortTakes, 1);
  }

  lemma BareEqualsRewrites(sh: Shell, safe: seq<string>, tokens: seq<string>)
    requires |tokens| >= 2 && ItemAt(tokens) == Separate && Guard(sh, safe, tokens[1]).Some? && Harden(sh, safe, tokens[2..]).Some?
    ensures HardenRsync(sh, safe, tokens) == Some([tokens[0], Guard(sh, safe, tokens[1]).value] + Harden(sh, safe, tokens[2..]).value)
  {
    hide Guard, ItemAt;
  }

  /** Bare operands are left alone by both parsers. */
  lemma {:induction false} PlainOperands(sh: Shell, safe: seq<string>, paths: seq<string>)
    requires forall p | p in paths :: Bare(p)
    ensures Harden(sh, safe, paths) == Some(paths) && Operands(paths) == paths
  {
    hide Guard, ShortTakes, LongTakes;
    if paths != [] {
      assert paths[0] in paths;
      PlainOperands(sh, safe, paths[1..]);
      SkipsByItem(paths);
      assert [paths[0]] + paths[1..] == paths;
    }
  }

  // --------------------------------------------------------- whole command lines

  predicate IsRsync(name: string) { name == "rsync" || name == Rsync }

  /** `_harden_raw_transport_argv`; `None` where it raises. */
  function HardenArgv(sh: Shell, safe: seq<string>, argv: seq<string>): Option<seq<string>> {
    if argv == [] then None
    else if IsSsh(argv[0]) then Append([Ssh] + safe, Sanitize(sh, Stripped(safe, argv[1..]), true))
    else if IsRsync(argv[0]) then Append([Rsync], HardenRsync(sh, safe, argv[1..]))
    else None
  }

  /**
    A hardened command runs one of the two pinned executables, a direct SSH command begins with the
    guarded prefix, and hardening is idempotent.
  */
  lemma HardeningSettles(sh: Shell, safe: seq<string>, argv: seq<string>)
    requires Lawful(sh) && OptionsOnly(safe) && HardenArgv(sh, safe, argv).Some?
    ensures var out := HardenArgv(sh, safe, argv).value;
      && out != [] && HardenArgv(sh, safe, out) == Some(out)
      && (if IsSsh(argv[0]) then |out| >= 1 + |safe| && out[..1 + |safe|] == [Ssh] + safe else out[0] == Rsync)
  {
    hide Sanitize, HardenRsync, Lawful, OptionsOnly, Settings, Destination;
    var out := HardenArgv(sh, safe, argv).value;
    if IsSsh(argv[0]) {
      DirectSsh(sh, safe, argv[1..]);
      assert out[1..] == safe + Sanitize(sh, Stripped(safe, argv[1..]), true).value;
    } else {
      HardenedIsGuarded(sh, safe, argv[1..]);
      assert out[1..] == HardenRsync(sh, safe, argv[1..]).value;
    }
  }

  // ----------------------------------------------------------------- the loops

  /** The letter loop over one cluster. */
  method ScanRsyncCluster(cluster: string) returns (i: nat)
    ensures i == Scan(cluster, ShortTakes)
  {
    hide ShortTakes;
    i := 0;
    while i < |cluster| && !ShortTakes(cluster[i])
      invariant 0 <= i <= |cluster| && forall j | 0 <= j < i :: !ShortTakes(cluster[j])
    {
      i := i + 1;
    }
    ScanIs(cluster, ShortTakes, i);
  }

  /** `_rsync_operands_from_argv`. */
  method RsyncOperands(argv: seq<string>) returns (operands: seq<string>)
    requires argv != []
    ensures operands == Operands(argv[1..])
  {
    hide Operands, OperandSkips, Bare, Long, Dashed;
    ghost var total := Operands(argv[1..]);
    operands := [];
    var index, finished := 1, false;
    while index < |argv|
      invariant 1 <= index <= |argv|
      invariant !finished ==> total == operands + Operands(argv[index..])
      invariant finished ==> total == operands + argv[index..]
    {
      var token := argv[index];
      ghost var here := argv[index..];
      assert here == [token] + argv[index + 1..];
      var size := 1;
      if finished {
        operands := operands + [token];
      } else if token == "--" {
        AfterTerminator(here);
        finished := true;
      } else {
        OperandsBySkip(here);
        assert here[1..] == argv[index + 1..];
        if Bare(token) {
          operands := operands + [token];
        } else {
          var skips := SkipsNext(token);
          if skips { size := 2; }
          if index + size > |argv| {
            LastSkips(here);
            return;
          }
          assert here[size..] == argv[index + size..];
        }
      }
      index := index + size;
    }
    assert argv[index..] == [];
    NoOperands();
  }

  lemma NoOperands()
    ensures Operands([]) == []
  {
  }

  lemma LastSkips(tokens: seq<string>)
    requires |tokens| == 1
    ensures !Bare(tokens[0]) && tokens[0] != "--" && OperandSkips(tokens[0]) ==> Operands(tokens) == []
  {
  }

  method SkipsNext(token: string) returns (skips: bool)
    requires !Bare(token) && token != "--"
    ensures skips == OperandSkips(token)
  {
    hide ShortTakes, LongTakes, Scan;
    if Long(token) { return LongNeedsNext(token); }
    var cluster := token[1..];
    var i := ScanRsyncCluster(cluster);
    return i + 1 == |cluster|;
  }

  /** The branches of the rewriter at one place, with its loop over the letters of a cluster. */
  method Classify(tokens: seq<string>) returns (item: Item)
    requires tokens != []
    ensures item == ItemAt(tokens)
  {
    hide ShortTakes, LongTakes, Scan;
    var token := tokens[0];
    if token == "--" { return Terminator; }
    if token == "-e" || token == "--rsh" { return Next(tokens, Separate); }
    if StartsRsh(token) { return Attached(RshEquals, token[6..]); }
    if Long(token) { return if LongNeedsNext(token) then Next(tokens, WithData) else Plain; }
    if !Dashed(token) { return Plain; }
    var cluster := token[1..];
    var i := ScanRsyncCluster(cluster);
    if i == |cluster| { return Plain; }
    if cluster[i] != 'e' { return if i + 1 == |cluster| then Next(tokens, WithData) else Plain; }
    var equals := if i + 1 < |cluster| && cluster[i + 1] == '=' then 1 else 0;
    if i + 1 + equals == |cluster| { return Next(tokens, Separate); }
    return Attached(token[..i + 2 + equals], token[i + 2 + equals..]);
  }

  lemma RefusedWhole(sh: Shell, safe: seq<string>, tokens: seq<string>, done: seq<string>)
    requires Harden(sh, safe, tokens) == Append(done, None)
    ensures HardenRsync(sh, safe, tokens) == None
  {
    hide Harden, Guard, HasTransport;
  }

  /** The rewriting loop: the list is edited in place, one option at a time. */
  method HardenLoop(sh: Shell, safe: seq<string>, argv: seq<string>) returns (r: Option<seq<string>>)
    ensures r == HardenRsync(sh, safe, argv)
  {
    hide Guard, ItemAt, Append;
    var hardened, found, index := argv, false, 0;
    ghost var whole := Harden(sh, safe, argv);
    assert argv[0..] == argv;
    AppendNothing(whole);
    while index < |hardened|
      invariant 0 <= index <= |hardened| && |hardened| == |argv| && hardened[index..] == argv[index..]
      invariant whole == Append(hardened[..index], Harden(sh, safe, argv[index..]))
      invariant HasTransport(argv) == (found || HasTransport(argv[index..]))
    {
      ghost var here, done := argv[index..], hardened[..index];
      assert here[0] == hardened[index] && here[1..] == argv[index + 1..];
      var item := Classify(hardened[index..]);
      var size := 1;
      ghost var piece := [here[0]];
      assert hardened[index..index + 1] == piece;
      if item.Terminator? {
        AppendSome(done, here);
        assert done + here == hardened;
        break;
      }
      if item.Lacking? {
        RefusedWhole(sh, safe, argv, done);
        return None;
      }
      if item.Separate? {
        var guarded := Guard(sh, safe, hardened[index + 1]);
        if guarded.None? {
          RefusedWhole(sh, safe, argv, done);
          return None;
        }
        hardened, found, size := hardened[index + 1 := guarded.value], true, 2;
        piece := [here[0], guarded.value];
        assert hardened[index..index + 2] == piece;
      } else if item.Attached? {
        var guarded := Guard(sh, safe, item.command);
        if guarded.None? {
          RefusedWhole(sh, safe, argv, done);
          return None;
        }
        hardened, found := hardened[index := item.prefix + guarded.value], true;
        piece := [item.prefix + guarded.value];
        assert hardened[index..index + 1] == piece;
      } else if item.WithData? {
        size := 2;
        piece := here[..2];
        assert hardened[index..index + 2] == piece;
      }
      assert here[size..] == argv[index + size..];
      assert hardened[index..index + size] == piece;
      Emits(done, piece, whole, Harden(sh, safe, here), Harden(sh, safe, here[size..]));
      index := index + size;
      assert hardened[..index] == done + piece;
    }
    if index == |hardened| {
      AppendSome(hardened, []);
      assert hardened[..index] == hardened && argv[index..] == [];
    }
    assert whole == Some(hardened) && HasTransport(argv) == found;
    if found { return Some(hardened); }
    var guarded := Guard(sh, safe, "ssh");
    if guarded.None? { return None; }
    AppendSome(["-e", guarded.value], hardened);
    return Some(["-e", guarded.value] + hardened);
  }
}
