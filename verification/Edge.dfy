/** Enforcement of the ban table at the edge (secwatch/ban.py, secwatch/banactuators.py):
    every change of the table rewrites the edge from the active bans, newest first, at
    most 500 of them. */
module Edge {
  import opened Collections
  import opened Windows
  import opened Bans

  const BAN_MAX_ACTIVE := 500

  datatype Actuator = Traefik | Nginx | Nftables | NoActuator

  /** What the actuators overwrite: the quoted scalar after `rule:` in the Traefik file
      (empty when the file has no router), what follows the header of the nginx include,
      and the nft set. */
  datatype EdgeState = EdgeState(scalar: string, text: string, banned: set<string>)

  predicate NoRepeats(s: seq<string>) {
    forall i, j :: 0 <= i < j < |s| ==> s[i] != s[j]
  }

  ghost predicate NewestFirst(bans: map<string, Ban>, ips: seq<string>) {
    forall i, j :: 0 <= i < j < |ips| && ips[i] in bans && ips[j] in bans ==>
      bans[ips[i]].created >= bans[ips[j]].created
  }

  /** `active`: the active IPs, newest ban first; ties in any order. */
  ghost predicate IsListing(bans: map<string, Ban>, now: Time, ips: seq<string>) {
    && NoRepeats(ips)
    && (forall ip :: ip in ips <==> ip in Active(bans, now))
    && NewestFirst(bans, ips)
  }

  function Capped(ips: seq<string>): seq<string> {
    if |ips| <= BAN_MAX_ACTIVE then ips else ips[..BAN_MAX_ACTIVE]
  }

  predicate IsV4(ip: string) { ':' !in ip }

  // ---- Traefik

  function Matcher(ip: string): string { "ClientIP(`" + ip + "`)" }

  /** The rule of the routers: one matcher per IP. */
  function TraefikRule(ips: seq<string>): string
    decreases |ips|
  {
    if ips == [] then ""
    else if |ips| == 1 then Matcher(ips[0])
    else Matcher(ips[0]) + (" || " + TraefikRule(ips[1..]))
  }

  /** The rules that are written here: a client's address, or one of two rules. */
  datatype Rule = ClientIP(ip: string) | Or(left: Rule, right: Rule)

  /** Whether a request from this client matches. */
  predicate Matches(r: Rule, client: string) {
    match r
    case ClientIP(ip) => client == ip
    case Or(left, right) => Matches(left, client) || Matches(right, client)
  }

  /** The position of the first backtick, or the length. */
  function Backtick(s: string): (n: nat)
    ensures n <= |s| && '`' !in s[..n] && (n < |s| ==> s[n] == '`')
  {
    if s == [] || s[0] == '`' then 0
    else
      var n := Backtick(s[1..]);
      assert s[..n + 1] == [s[0]] + s[1..][..n];
      n + 1
  }

  /** The rule that a text says, if it is made of matchers joined by "||"; the argument of a
      matcher ends at the next backtick. */
  function Parsed(t: string): Option<Rule>
    decreases |t|
  {
    if !("ClientIP(`" <= t) then None
    else
      var rest := t[|"ClientIP(`"|..];
      var n := Backtick(rest);
      var ip, after := rest[..n], rest[n..];
      if after == "`)" then Some(ClientIP(ip))
      else if !("`) || " <= after) then None
      else
        var more := Parsed(after[|"`) || "|..]);
        if more.None? then None else Some(Or(ClientIP(ip), more.value))
  }

  /** The addresses of a rule, in order. */
  function Clients(r: Rule): seq<string> {
    match r
    case ClientIP(ip) => [ip]
    case Or(left, right) => Clients(left) + Clients(right)
  }

  lemma {:induction false} MatchesIff(r: Rule, client: string)
    ensures Matches(r, client) <==> client in Clients(r)
  {
    match r
    case ClientIP(_) =>
    case Or(left, right) =>
      MatchesIff(left, client);
      MatchesIff(right, client);
  }

  lemma {:induction false} BacktickIs(s: string, n: nat)
    requires n <= |s| && '`' !in s[..n] && (n < |s| ==> s[n] == '`')
    ensures Backtick(s) == n
  {
    if n > 0 {
      assert s[..n] == [s[0]] + s[1..][..n - 1];
      BacktickIs(s[1..], n - 1);
    }
  }

  predicate Unquoted(ips: seq<string>) { forall i :: 0 <= i < |ips| ==> '`' !in ips[i] }

  lemma Dropped(a: string, b: string)
    ensures a <= a + b && (a + b)[|a|..] == b
  {
  }

  /** What the reader finds after the opening of a matcher. */
  lemma MatcherSplits(ip: string, after: string)
    requires '`' !in ip && after != "" && after[0] == '`'
    ensures Backtick(ip + after) == |ip| && (ip + after)[..|ip|] == ip && (ip + after)[|ip|..] == after
  {
    assert (ip + after)[..|ip|] == ip;
    BacktickIs(ip + after, |ip|);
  }

  lemma ParsedLast(ip: string)
    requires '`' !in ip
    ensures Parsed("ClientIP(`" + (ip + "`)")) == Some(ClientIP(ip))
  {
    Dropped("ClientIP(`", ip + "`)");
    MatcherSplits(ip, "`)");
  }

  lemma ParsedNext(ip: string, text: string)
    requires '`' !in ip && Parsed(text).Some?
    ensures Parsed("ClientIP(`" + (ip + ("`) || " + text))) == Some(Or(ClientIP(ip), Parsed(text).value))
  {
    Dropped("ClientIP(`", ip + ("`) || " + text));
    MatcherSplits(ip, "`) || " + text);
    Dropped("`) || ", text);
  }

  lemma RegroupLast(ip: string)
    ensures Matcher(ip) == "ClientIP(`" + (ip + "`)")
  {
  }

  lemma Regrouped(a: string, b: string, c: string, d: string)
    ensures (a + b + c) + d == a + (b + (c + d))
  {
  }

  lemma MatcherThen(ip: string, rest: string)
    ensures Matcher(ip) + rest == "ClientIP(`" + (ip + ("`)" + rest))
  {
    Regrouped("ClientIP(`", ip, "`)", rest);
  }

  lemma BarThen(text: string)
    ensures "`)" + (" || " + text) == "`) || " + text
  {
    assert "`) || " == "`)" + " || ";
  }

  lemma NextParsed(ip: string, text: string)
    requires '`' !in ip && Parsed(text).Some?
    ensures Parsed(Matcher(ip) + (" || " + text)) == Some(Or(ClientIP(ip), Parsed(text).value))
  {
    MatcherThen(ip, " || " + text);
    BarThen(text);
    ParsedNext(ip, text);
  }

  lemma OrClients(ips: seq<string>, rest: Rule)
    requires ips != [] && Clients(rest) == ips[1..]
    ensures Clients(Or(ClientIP(ips[0]), rest)) == ips
  {
  }

  /** The rule can be read, and names the IPs in order. */
  lemma {:induction false} RuleParsed(ips: seq<string>)
    requires ips != [] && Unquoted(ips)
    ensures Parsed(TraefikRule(ips)).Some? && Clients(Parsed(TraefikRule(ips)).value) == ips
    decreases |ips|
  {
    if |ips| == 1 {
      RegroupLast(ips[0]);
      ParsedLast(ips[0]);
    } else {
      RuleParsed(ips[1..]);
      NextParsed(ips[0], TraefikRule(ips[1..]));
      OrClients(ips, Parsed(TraefikRule(ips[1..])).value);
    }
  }

  lemma {:induction false} ParsedUnquoted(t: string)
    ensures Parsed(t).Some? ==> Unquoted(Clients(Parsed(t).value))
    decreases |t|
  {
    if Parsed(t).Some? {
      var rest := t[|"ClientIP(`"|..];
      var after := rest[Backtick(rest)..];
      if after != "`)" {
        ParsedUnquoted(after[|"`) || "|..]);
      }
    }
  }

  /** A request matches the rule exactly if its client is on the list. */
  lemma RuleMatchesIff(ips: seq<string>, client: string)
    requires ips != [] && Unquoted(ips)
    ensures Parsed(TraefikRule(ips)).Some?
    ensures Matches(Parsed(TraefikRule(ips)).value, client) <==> client in ips
  {
    RuleParsed(ips);
    MatchesIff(Parsed(TraefikRule(ips)).value, client);
  }

  // ---- the double-quoted YAML scalar around the rule

  /** The printable characters of section 5.1 of YAML 1.2, line breaks apart. A reader of a
      quoted scalar has to accept some more; the model's reader is the stricter one. */
  predicate Printable(c: char) {
    c == '\t' || ' ' <= c <= '~' || '\U{A0}' <= c <= '\U{D7FF}' || '\U{E000}' <= c <= '\U{FFFD}' || '\U{10000}' <= c
  }

  /** A character that stands for itself in a double-quoted scalar: it neither ends it, nor
      begins an escape, nor breaks the line. */
  predicate Literal(c: char) {
    Printable(c) && c != '"' && c != '\\' && c != '\U{2028}' && c != '\U{2029}'
  }

  predicate AllLiteral(s: string) { forall i :: 0 <= i < |s| ==> Literal(s[i]) }

  function Scalar(value: string): string { "\"" + value + "\"" }

  /** The text up to a closing quote at the very end; anything else is not read. */
  function ReadBody(t: string): Option<string> {
    if t == "" then None
    else if t[0] == '"' then (if |t| == 1 then Some("") else None)
    else if !Literal(t[0]) then None
    else
      var rest := ReadBody(t[1..]);
      if rest.None? then None else Some([t[0]] + rest.value)
  }

  function ReadScalar(t: string): Option<string> {
    if t == "" || t[0] != '"' then None else ReadBody(t[1..])
  }

  lemma {:induction false} BodyReads(v: string)
    requires AllLiteral(v)
    ensures ReadBody(v + "\"") == Some(v)
  {
    if v != "" {
      BodyReads(v[1..]);
      assert (v + "\"")[1..] == v[1..] + "\"";
      assert v == [v[0]] + v[1..];
    } else {
      assert v + "\"" == "\"";
    }
  }

  lemma {:induction false} BodyIs(t: string)
    ensures ReadBody(t).Some? ==> t == ReadBody(t).value + "\"" && AllLiteral(ReadBody(t).value)
  {
    if ReadBody(t).Some? && t[0] != '"' {
      BodyIs(t[1..]);
      assert t == [t[0]] + t[1..];
    }
  }

  /** A scalar reads back if and only if every character stands for itself. */
  lemma ScalarReadsBack(v: string)
    ensures ReadScalar(Scalar(v)) == Some(v) <==> AllLiteral(v)
    ensures ReadScalar(Scalar(v)).Some? ==> ReadScalar(Scalar(v)) == Some(v)
  {
    var t := Scalar(v);
    assert t[1..] == v + "\"";
    if AllLiteral(v) {
      BodyReads(v);
    }
    BodyIs(t[1..]);
    if ReadBody(t[1..]).Some? {
      var w := ReadBody(t[1..]).value;
      assert w == (w + "\"")[..|w|] && v == (v + "\"")[..|v|];
    }
  }

  lemma LiteralSum(a: string, b: string)
    ensures AllLiteral(a + b) <==> AllLiteral(a) && AllLiteral(b)
  {
    if AllLiteral(a + b) {
      assert forall i :: 0 <= i < |a| ==> a[i] == (a + b)[i];
      assert forall i :: 0 <= i < |b| ==> b[i] == (a + b)[|a| + i];
    }
  }

  predicate EachLiteral(ips: seq<string>) { forall i :: 0 <= i < |ips| ==> AllLiteral(ips[i]) }

  lemma EachLiteralFirst(ips: seq<string>)
    requires ips != []
    ensures EachLiteral(ips) <==> AllLiteral(ips[0]) && EachLiteral(ips[1..])
  {
    assert ips == [ips[0]] + ips[1..];
  }

  lemma MatcherLiteral(ip: string)
    ensures AllLiteral(Matcher(ip)) <==> AllLiteral(ip)
  {
    LiteralSum("ClientIP(`", ip + "`)");
    LiteralSum(ip, "`)");
    assert Matcher(ip) == "ClientIP(`" + (ip + "`)");
  }

  lemma {:induction false} RuleLiteral(ips: seq<string>)
    ensures AllLiteral(TraefikRule(ips)) <==> EachLiteral(ips)
    decreases |ips|
  {
    if ips != [] {
      MatcherLiteral(ips[0]);
      EachLiteralFirst(ips);
      if |ips| > 1 {
        RuleLiteral(ips[1..]);
        LiteralSum(Matcher(ips[0]), " || " + TraefikRule(ips[1..]));
        LiteralSum(" || ", TraefikRule(ips[1..]));
      }
    }
  }

  /** The scalar of a list; the file has no router when there is nothing to ban. */
  function RuleScalar(ips: seq<string>): string {
    if ips == [] then "" else Scalar(TraefikRule(ips))
  }

  /** The clients that the file turns away, if it can be read. */
  function ReadRule(scalar: string): Option<seq<string>> {
    if scalar == "" then Some([])
    else if ReadScalar(scalar).None? || Parsed(ReadScalar(scalar).value).None? then None
    else Some(Clients(Parsed(ReadScalar(scalar).value).value))
  }

  /** An address that both the scalar and the rule pass on as it is. */
  predicate TraefikReads(ip: string) { AllLiteral(ip) && '`' !in ip }

  /** The file names exactly the given IPs, in order, if and only if none of them contains a
      backtick, a double quote, a backslash, a line break or an unprintable character. An
      IPv6 zone id is the one place where an accepted address can. */
  lemma RuleReadsBack(ips: seq<string>)
    ensures ReadRule(RuleScalar(ips)) == Some(ips) <==> forall i :: 0 <= i < |ips| ==> TraefikReads(ips[i])
  {
    if ips != [] {
      RuleLiteral(ips);
      ScalarReadsBack(TraefikRule(ips));
      if Unquoted(ips) {
        RuleParsed(ips);
      }
      ParsedUnquoted(TraefikRule(ips));
    }
  }

  // ---- nginx

  /** One directive per IP. */
  function DenyText(ips: seq<string>): string
    decreases |ips|
  {
    if ips == [] then "" else "deny " + (ips[0] + (";\n" + DenyText(ips[1..])))
  }

  /** A character that neither ends a word of the nginx configuration nor can change in it.
      This is stricter than nginx, which keeps a backslash before most characters and does
      not end a word at the brace of "${". */
  predicate WordChar(c: char) {
    c != ' ' && c != '\t' && c != '\r' && c != '\n' && c != ';' && c != '{' && c != '\\'
  }

  /** Quotes, comments and closing braces are special at the start of a word only. */
  predicate WordStart(c: char) { WordChar(c) && c != '"' && c != '\'' && c != '#' && c != '}' }

  /** The length of the word that a text begins with. */
  function WordEnd(t: string): (n: nat)
    ensures n <= |t| && (forall i :: 0 <= i < n ==> WordChar(t[i])) && (n < |t| ==> !WordChar(t[n]))
  {
    if t == "" || !WordChar(t[0]) then 0 else 1 + WordEnd(t[1..])
  }

  /** The addresses of a text of `deny` directives, one a line, if it is one. */
  function ReadDenies(t: string): Option<seq<string>>
    decreases |t|
  {
    if t == "" then Some([])
    else if !("deny " <= t) then None
    else
      var rest := t[|"deny "|..];
      var n := WordEnd(rest);
      if n == 0 || !WordStart(rest[0]) || !(";\n" <= rest[n..]) then None
      else
        var more := ReadDenies(rest[n + 2..]);
        if more.None? then None else Some([rest[..n]] + more.value)
  }

  /** An address that is one word. */
  predicate NginxReads(ip: string) { ip != "" && WordStart(ip[0]) && forall i :: 0 <= i < |ip| ==> WordChar(ip[i]) }

  lemma {:induction false} WordIs(ip: string, after: string)
    requires forall i :: 0 <= i < |ip| ==> WordChar(ip[i])
    ensures WordEnd(ip + (";\n" + after)) == |ip|
  {
    var t := ip + (";\n" + after);
    var n := WordEnd(t);
    assert t[|ip|] == ';' && !WordChar(t[|ip|]);
    assert forall i :: 0 <= i < |ip| ==> t[i] == ip[i];
  }

  lemma TwoParts(a: string, b: string, c: string)
    ensures (a + (b + c))[..|a|] == a && b <= (a + (b + c))[|a|..] && (a + (b + c))[|a| + |b|..] == c
  {
    assert (a + (b + c))[|a|..] == b + c;
  }

  /** What the reader makes of a text whose first directive is known. */
  lemma FirstDirective(t: string, rest: string, n: nat, ip: string, after: string)
    requires t != "" && "deny " <= t && t[|"deny "|..] == rest && WordEnd(rest) == n > 0 && n + 2 <= |rest|
    requires WordStart(rest[0]) && rest[..n] == ip && ";\n" <= rest[n..] && rest[n + 2..] == after
    ensures ReadDenies(t) == if ReadDenies(after).None? then None else Some([ip] + ReadDenies(after).value)
  {
  }

  lemma ReadsFirst(ip: string, after: string)
    requires NginxReads(ip)
    ensures ReadDenies("deny " + (ip + (";\n" + after)))
         == if ReadDenies(after).None? then None else Some([ip] + ReadDenies(after).value)
  {
    var rest := ip + (";\n" + after);
    Dropped("deny ", rest);
    WordIs(ip, after);
    TwoParts(ip, ";\n", after);
    FirstDirective("deny " + rest, rest, |ip|, ip, after);
  }

  lemma {:induction false} DeniesRead(ips: seq<string>)
    requires forall i :: 0 <= i < |ips| ==> NginxReads(ips[i])
    ensures ReadDenies(DenyText(ips)) == Some(ips)
    decreases |ips|
  {
    if ips != [] {
      DeniesRead(ips[1..]);
      ReadsFirst(ips[0], DenyText(ips[1..]));
      assert ips == [ips[0]] + ips[1..];
    }
  }

  lemma {:induction false} ReadAreWords(t: string)
    ensures ReadDenies(t).Some? ==> forall i :: 0 <= i < |ReadDenies(t).value| ==> NginxReads(ReadDenies(t).value[i])
    decreases |t|
  {
    if t != "" && ReadDenies(t).Some? {
      var rest := t[|"deny "|..];
      ReadAreWords(rest[WordEnd(rest) + 2..]);
    }
  }

  /** The include denies exactly the given IPs, in order, if and only if each of them is one
      word: no white space, semicolon, brace or backslash. */
  lemma DenyReadsBack(ips: seq<string>)
    ensures ReadDenies(DenyText(ips)) == Some(ips) <==> forall i :: 0 <= i < |ips| ==> NginxReads(ips[i])
  {
    if forall i :: 0 <= i < |ips| ==> NginxReads(ips[i]) {
      DeniesRead(ips);
    }
    ReadAreWords(DenyText(ips));
  }

  // ---- nftables

  function V4Only(ips: seq<string>): seq<string> {
    if ips == [] then []
    else V4Only(ips[..|ips| - 1]) + (if IsV4(ips[|ips| - 1]) then [ips[|ips| - 1]] else [])
  }

  lemma {:induction false} V4OnlyKeeps(ips: seq<string>)
    ensures forall ip :: ip in V4Only(ips) <==> ip in ips && forall i :: 0 <= i < |ip| ==> ip[i] != ':'
  {
    if ips != [] {
      V4OnlyKeeps(ips[..|ips| - 1]);
      assert ips == ips[..|ips| - 1] + [ips[|ips| - 1]];
    }
  }

  /** The nft commands that touch the set; the others create what exists already. */
  datatype NftCommand = FlushSet | AddElements(ips: seq<string>)

  function NftCommands(ips: seq<string>): seq<NftCommand> {
    [FlushSet] + (if ips != [] then [AddElements(ips)] else [])
  }

  function NftStep(banned: set<string>, cmd: NftCommand): set<string> {
    match cmd
    case FlushSet => {}
    case AddElements(ips) => banned + set ip | ip in ips
  }

  function NftRun(banned: set<string>, cmds: seq<NftCommand>): set<string>
    decreases |cmds|
  {
    if cmds == [] then banned else NftRun(NftStep(banned, cmds[0]), cmds[1..])
  }

  /** The commands leave exactly the given addresses in the set, whatever was in it. */
  lemma NftReconciles(banned: set<string>, ips: seq<string>)
    ensures NftRun(banned, NftCommands(ips)) == set ip | ip in ips
  {
    var cmds := NftCommands(ips);
    var rest := cmds[1..];
    assert NftRun(banned, cmds) == NftRun({}, rest);
    if ips != [] {
      assert rest == [AddElements(ips)];
      assert rest[1..] == [];
      var added: set<string> := {} + set ip | ip in ips;
      assert NftRun({}, rest) == NftRun(added, rest[1..]) == added;
    } else {
      assert rest == [];
    }
  }

  // ---- what a sync leaves behind

  /** `sync`: the cap comes before the IPv4 filter of nftables. */
  function Rendered(a: Actuator, ips: seq<string>, e: EdgeState): EdgeState {
    match a
    case Traefik => e.(scalar := RuleScalar(Capped(ips)))
    case Nginx => e.(text := DenyText(Capped(ips)))
    case Nftables => e.(banned := NftRun(e.banned, NftCommands(V4Only(Capped(ips)))))
    case NoActuator => e
  }

  function SetOf(ips: Option<seq<string>>): set<string> {
    if ips.None? then {} else set ip | ip in ips.value
  }

  /** The addresses that the edge turns away; a file that cannot be read turns away none. */
  function Denies(a: Actuator, e: EdgeState): set<string> {
    match a
    case Traefik => SetOf(ReadRule(e.scalar))
    case Nginx => SetOf(ReadDenies(e.text))
    case Nftables => e.banned
    case NoActuator => {}
  }

  /** The addresses that the actuator can deny. */
  predicate Handles(a: Actuator, ip: string) {
    match a
    case Traefik => TraefikReads(ip)
    case Nginx => NginxReads(ip)
    case Nftables => IsV4(ip)
    case NoActuator => false
  }

  /** Hexadecimal digits, dots and colons, as in every address without a zone id. */
  predicate IsPlain(ip: string) {
    ip != "" && forall i :: 0 <= i < |ip| ==> ip[i] in "0123456789abcdefABCDEF.:"
  }

  /** Every actuator that enforces bans handles the plain addresses; nftables those of IPv4. */
  lemma PlainIsHandled(ip: string)
    requires IsPlain(ip)
    ensures Handles(Traefik, ip) && Handles(Nginx, ip)
    ensures (forall i :: 0 <= i < |ip| ==> ip[i] != ':') ==> Handles(Nftables, ip)
  {
    forall i | 0 <= i < |ip| ensures Literal(ip[i]) && WordChar(ip[i]) && WordStart(ip[i]) && ip[i] != '`' {
      assert ip[i] in "0123456789abcdefABCDEF.:";
    }
  }

  predicate WritesFile(a: Actuator) { a == Traefik || a == Nginx }

  /** A written file reads back as the capped list if and only if the actuator can deny every
      address on it: one address that it cannot spoils the file. */
  lemma RenderedReadsIff(a: Actuator, ips: seq<string>, e: EdgeState)
    requires WritesFile(a)
    ensures var after := Rendered(a, ips, e);
            var read := if a == Traefik then ReadRule(after.scalar) else ReadDenies(after.text);
            read == Some(Capped(ips)) <==> forall i :: 0 <= i < |Capped(ips)| ==> Handles(a, Capped(ips)[i])
  {
    if a == Traefik {
      RuleReadsBack(Capped(ips));
    } else {
      DenyReadsBack(Capped(ips));
    }
  }

  /** Every actuator denies exactly the capped list, as far as it handles the addresses; a
      file has to be readable for that. */
  lemma RenderedDenies(a: Actuator, ips: seq<string>, e: EdgeState)
    requires WritesFile(a) ==> forall i :: 0 <= i < |Capped(ips)| ==> Handles(a, Capped(ips)[i])
    ensures Denies(a, Rendered(a, ips, e)) == set ip | ip in Capped(ips) && Handles(a, ip)
  {
    match a
    case Traefik => RenderedReadsIff(a, ips, e);
    case Nginx => RenderedReadsIff(a, ips, e);
    case Nftables =>
      NftReconciles(e.banned, V4Only(Capped(ips)));
      V4OnlyKeeps(Capped(ips));
    case NoActuator =>
  }

  /** The nft set holds exactly the first 500 addresses of the list that have no colon. */
  lemma NftDeniesIff(ips: seq<string>, e: EdgeState, ip: string)
    ensures ip in Denies(Nftables, Rendered(Nftables, ips, e)) <==>
              (exists k :: 0 <= k < |ips| && k < 500 && ips[k] == ip) && forall i :: 0 <= i < |ip| ==> ip[i] != ':'
  {
    NftReconciles(e.banned, V4Only(Capped(ips)));
    V4OnlyKeeps(Capped(ips));
    if ip in Capped(ips) {
      var k :| 0 <= k < |Capped(ips)| && Capped(ips)[k] == ip;
      assert ips[k] == ip;
    }
    if k :| 0 <= k < |ips| && k < 500 && ips[k] == ip {
      assert Capped(ips)[k] == ip;
    }
  }

  /** The Traefik file turns a client away exactly if its rule can be read and matches. */
  lemma TraefikDeniesIff(e: EdgeState, client: string)
    requires e.scalar != ""
    ensures client in Denies(Traefik, e) <==>
              && ReadScalar(e.scalar).Some? && Parsed(ReadScalar(e.scalar).value).Some?
              && Matches(Parsed(ReadScalar(e.scalar).value).value, client)
  {
    if ReadScalar(e.scalar).Some? && Parsed(ReadScalar(e.scalar).value).Some? {
      MatchesIff(Parsed(ReadScalar(e.scalar).value).value, client);
    }
  }

  /** The edge is what `sync` makes of some listing of the bans active at time `at`. */
  ghost predicate Synced(a: Actuator, bans: map<string, Ban>, at: Time, e: EdgeState) {
    exists ips :: IsListing(bans, at, ips) && e == Rendered(a, ips, e)
  }

  /** No active address spoils the file of the actuator. */
  ghost predicate Quotable(a: Actuator, bans: map<string, Ban>, at: Time) {
    WritesFile(a) ==> forall ip :: ip in Active(bans, at) ==> Handles(a, ip)
  }

  lemma {:induction false} AsSet(s: seq<string>)
    requires NoRepeats(s)
    ensures |set x | x in s| == |s|
  {
    if s != [] {
      var front, last := s[..|s| - 1], s[|s| - 1];
      AsSet(front);
      assert s == front + [last];
      assert (set x | x in s) == (set x | x in front) + {last};
    }
  }

  lemma CappedSize(bans: map<string, Ban>, at: Time, ips: seq<string>)
    requires IsListing(bans, at, ips)
    ensures |ips| == |Active(bans, at)|
    ensures |set ip | ip in Capped(ips)| == |Capped(ips)|
    ensures forall ip :: ip in Capped(ips) ==> ip in Active(bans, at)
  {
    AsSet(ips);
    assert (set x | x in ips) == Active(bans, at);
    AsSet(Capped(ips));
  }

  lemma LeftOutIsOlder(bans: map<string, Ban>, at: Time, ips: seq<string>, left: string, taken: string)
    requires IsListing(bans, at, ips) && left in Active(bans, at) && left !in Capped(ips) && taken in Capped(ips)
    ensures taken in bans && bans[left].created <= bans[taken].created
  {
    var capped := Capped(ips);
    var i :| 0 <= i < |ips| && ips[i] == left;
    var j :| 0 <= j < |capped| && capped[j] == taken;
    assert ips[j] == taken && taken in ips;
    assert forall k :: 0 <= k < |capped| ==> capped[k] == ips[k];
  }

  /** `top` is a choice of the newest 500 active bans. */
  ghost predicate IsNewest(bans: map<string, Ban>, at: Time, top: set<string>) {
    && top <= Active(bans, at)
    && |top| == (if |Active(bans, at)| <= BAN_MAX_ACTIVE then |Active(bans, at)| else BAN_MAX_ACTIVE)
    && (|Active(bans, at)| <= BAN_MAX_ACTIVE ==> top == Active(bans, at))
    && forall left, taken :: left in Active(bans, at) && left !in top && taken in top ==>
      bans[left].created <= bans[taken].created
  }

  lemma CappedIsNewest(bans: map<string, Ban>, at: Time, ips: seq<string>)
    requires IsListing(bans, at, ips)
    ensures IsNewest(bans, at, set ip | ip in Capped(ips))
  {
    CappedSize(bans, at, ips);
    var top := set ip | ip in Capped(ips);
    forall left, taken | left in Active(bans, at) && left !in top && taken in top
      ensures bans[left].created <= bans[taken].created
    {
      LeftOutIsOlder(bans, at, ips, left, taken);
    }
    assert |ips| <= BAN_MAX_ACTIVE ==> top == Active(bans, at);
  }

  lemma ListedDenies(a: Actuator, bans: map<string, Ban>, at: Time, ips: seq<string>, e: EdgeState)
    requires IsListing(bans, at, ips) && e == Rendered(a, ips, e) && Quotable(a, bans, at)
    ensures Denies(a, e) == set ip | ip in Capped(ips) && Handles(a, ip)
  {
    forall i | 0 <= i < |Capped(ips)| && WritesFile(a) ensures Handles(a, Capped(ips)[i]) {
      assert Capped(ips)[i] == ips[i] && ips[i] in ips;
    }
    RenderedDenies(a, ips, e);
  }

  /** A synced edge denies exactly the first 500 active bans by age, newest first, as far
      as the actuator handles the addresses: only active bans; all of them when there are
      at most 500; otherwise 500 of them, none older than one that was left out. */
  lemma SyncedDenies(a: Actuator, bans: map<string, Ban>, at: Time, e: EdgeState) returns (top: set<string>)
    requires Synced(a, bans, at, e) && Quotable(a, bans, at)
    ensures IsNewest(bans, at, top)
    ensures Denies(a, e) == set ip | ip in top && Handles(a, ip)
  {
    var ips :| IsListing(bans, at, ips) && e == Rendered(a, ips, e);
    ListedDenies(a, bans, at, ips, e);
    CappedIsNewest(bans, at, ips);
    top := set ip | ip in Capped(ips);
  }

  /** As time passes without a change, every ban that is still active is enforced,
      provided at most 500 were active at the last sync. */
  lemma StillEnforced(a: Actuator, bans: map<string, Ban>, at: Time, e: EdgeState, now: Time, ip: string)
    requires Synced(a, bans, at, e) && Quotable(a, bans, at) && at <= now && |Active(bans, at)| <= BAN_MAX_ACTIVE
    requires ip in Active(bans, now) && Handles(a, ip)
    ensures ip in Denies(a, e)
  {
    var top := SyncedDenies(a, bans, at, e);
  }

  lemma RenderedAgain(a: Actuator, ips: seq<string>, e: EdgeState)
    ensures Rendered(a, ips, Rendered(a, ips, e)) == Rendered(a, ips, e)
  {
    if a == Nftables {
      NftReconciles(e.banned, V4Only(Capped(ips)));
      NftReconciles(Rendered(a, ips, e).banned, V4Only(Capped(ips)));
    }
  }

  // ---- when one ban is enforced whatever the order of equally old ones

  lemma {:induction false} NewestExists(bans: map<string, Ban>, rest: set<string>)
    requires rest <= bans.Keys && rest != {}
    ensures exists ip :: ip in rest && forall other :: other in rest ==> bans[other].created <= bans[ip].created
  {
    var first :| first in rest;
    if rest != {first} {
      NewestExists(bans, rest - {first});
      var best :| best in rest - {first} && forall other :: other in rest - {first} ==>
        bans[other].created <= bans[best].created;
      var newest := if bans[first].created <= bans[best].created then best else first;
      assert forall other :: other in rest ==> bans[other].created <= bans[newest].created;
    }
  }

  /** Any set of rows can be listed, newest first. */
  lemma {:induction false} Arranged(bans: map<string, Ban>, rest: set<string>) returns (ips: seq<string>)
    requires rest <= bans.Keys
    ensures NoRepeats(ips) && NewestFirst(bans, ips) && forall ip :: ip in ips <==> ip in rest
    decreases rest
  {
    if rest == {} {
      ips := [];
    } else {
      NewestExists(bans, rest);
      var newest :| newest in rest && forall other :: other in rest ==> bans[other].created <= bans[newest].created;
      var tail := Arranged(bans, rest - {newest});
      assert forall i :: 0 <= i < |tail| ==> tail[i] in tail;
      ips := [newest] + tail;
    }
  }

  lemma ListingExists(bans: map<string, Ban>, now: Time) returns (ips: seq<string>)
    ensures IsListing(bans, now, ips)
  {
    ips := Arranged(bans, Active(bans, now));
  }

  /** The other active bans that are at least as new. */
  function Rivals(bans: map<string, Ban>, now: Time, ip: string): set<string>
    requires ip in bans
  {
    set other | other in Active(bans, now) && other != ip && bans[other].created >= bans[ip].created
  }

  lemma PlaceAtMost(bans: map<string, Ban>, now: Time, ips: seq<string>, k: nat)
    requires IsListing(bans, now, ips) && k < |ips| && ips[k] in bans
    ensures k <= |Rivals(bans, now, ips[k])|
  {
    var before := set x | x in ips[..k];
    AsSet(ips[..k]);
    forall x | x in before ensures x in Rivals(bans, now, ips[k]) {
      var i :| 0 <= i < k && ips[i] == x;
      assert ips[i] in ips;
    }
    SubsetCard(before, Rivals(bans, now, ips[k]));
  }

  /** The listing in which all rivals come first. */
  lemma WorstListing(bans: map<string, Ban>, now: Time, ip: string) returns (ips: seq<string>)
    requires ip in Active(bans, now)
    ensures IsListing(bans, now, ips)
    ensures |Rivals(bans, now, ip)| < |ips| && ips[|Rivals(bans, now, ip)|] == ip
  {
    var rivals := Rivals(bans, now, ip);
    var first := Arranged(bans, rivals);
    var last := Arranged(bans, Active(bans, now) - rivals - {ip});
    AsSet(first);
    assert (set x | x in first) == rivals;
    assert forall i :: 0 <= i < |first| ==> first[i] in first;
    assert forall i :: 0 <= i < |last| ==> last[i] in last;
    ips := first + [ip] + last;
  }

  /** An active ban is enforced after every sync if and only if the actuator handles its
      address and fewer than 500 other active bans are at least as new. */
  lemma EnforcedIff(a: Actuator, bans: map<string, Ban>, at: Time, ip: string)
    requires ip in Active(bans, at) && Quotable(a, bans, at)
    ensures (forall e :: Synced(a, bans, at, e) ==> ip in Denies(a, e))
       <==> Handles(a, ip) && |Rivals(bans, at, ip)| < BAN_MAX_ACTIVE
  {
    if Handles(a, ip) && |Rivals(bans, at, ip)| < BAN_MAX_ACTIVE {
      forall e | Synced(a, bans, at, e) ensures ip in Denies(a, e) {
        var ips :| IsListing(bans, at, ips) && e == Rendered(a, ips, e);
        ListedDenies(a, bans, at, ips, e);
        var k :| 0 <= k < |ips| && ips[k] == ip;
        PlaceAtMost(bans, at, ips, k);
        assert Capped(ips)[k] == ip;
      }
    } else {
      var ips := WorstListing(bans, at, ip);
      var e := Rendered(a, ips, EdgeState("", "", {}));
      RenderedAgain(a, ips, EdgeState("", "", {}));
      ListedDenies(a, bans, at, ips, e);
      assert Synced(a, bans, at, e);
      assert ip in Capped(ips) ==> |Rivals(bans, at, ip)| < BAN_MAX_ACTIVE;
    }
  }
}
