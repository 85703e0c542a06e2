/** Port mappings are read by five different pieces of code: the template validator, the
    docker adapter, the controller's conflict detector, the endpoint inference and the agent.
    This module models the five readers and shows when they see the same host port. */
module Ports {
  import opened Text
  import opened Wrappers

  const MAX_PORT := 65535

  function IndexOf(s: string, c: char): (i: int)
    ensures c !in s <==> i == -1
    ensures c in s ==> 0 <= i < |s| && s[i] == c && c !in s[..i]
  {
    if s == "" then -1
    else if s[0] == c then 0
    else
      var rest := IndexOf(s[1..], c);
      if rest == -1 then -1
      else
        assert s[..rest + 1] == [s[0]] + s[1..][..rest];
        rest + 1
  }

  /** Drops a "/proto" suffix; a slash in first position is left alone. */
  function CutProtocol(s: string): string {
    var i := IndexOf(s, '/');
    if i > 0 then s[..i] else s
  }

  function DigitsValue(s: string): nat
    requires forall i | 0 <= i < |s| :: IsDigit(s[i])
  {
    if s == "" then 0
    else
      var units := s[|s| - 1] as int - '0' as int;
      assert IsDigit(s[|s| - 1]);
      DigitsValue(s[..|s| - 1]) * 10 + units
  }

  /** Decimal reading with an optional sign; None for anything else. */
  function Atoi(s: string): Option<int> {
    if AllDigits(s) then Some(DigitsValue(s) as int)
    else if s != "" && s[0] == '+' && AllDigits(s[1..]) then Some(DigitsValue(s[1..]) as int)
    else if s != "" && s[0] == '-' && AllDigits(s[1..]) then Some(0 - (DigitsValue(s[1..]) as int))
    else None
  }

  predicate IsPortNumber(s: string) {
    Atoi(s).Some? && 0 < Atoi(s).value <= MAX_PORT
  }

  function LowerChar(c: char): char {
    if 'A' <= c <= 'Z' then (c as int + 32) as char else c
  }

  function Lower(s: string): string {
    seq(|s|, i requires 0 <= i < |s| => LowerChar(s[i]))
  }

  predicate IsProtocol(s: string) {
    Lower(Trim(s)) == "tcp" || Lower(Trim(s)) == "udp"
  }

  /** The part of a mapping the validator reads ports from, once it is known to be well formed. */
  function ValidatorMain(item: string): Option<string> {
    var v := Trim(item);
    if v == "" then None
    else if '/' in v then
      var pair := Split(v, '/');
      if |pair| == 2 && IsProtocol(pair[1]) then Some(pair[0]) else None
    else Some(v)
  }

  /** What a template must satisfy to be stored: exactly host:container, both in range. */
  predicate ValidatePort(item: string) {
    var main := ValidatorMain(item);
    && main.Some?
    && |Split(main.value, ':')| == 2
    && forall p | p in Split(main.value, ':') :: IsPortNumber(Trim(p))
  }

  datatype PortBinding = PortBinding(hostPort: string, containerPort: string, protocol: string)

  /** The docker adapter's reading: what docker is asked to bind. */
  function ParsePortMapping(item: string): Option<PortBinding> {
    var s := Trim(item);
    if s == "" then None
    else
      var halves := Split(s, '/');
      if '/' in s && (|halves| != 2 || !IsProtocol(halves[1])) then None
      else
        var main := if '/' in s then Trim(halves[0]) else s;
        var protocol := if '/' in s then Lower(Trim(halves[1])) else "tcp";
        var parts := Split(main, ':');
        if |parts| != 2 || !IsPortNumber(Trim(parts[0])) || !IsPortNumber(Trim(parts[1])) then None
        else Some(PortBinding(Trim(parts[0]), Trim(parts[1]), protocol))
  }

  /** The conflict detector's reading of one entry; empty when there is nothing to compare. */
  function ConflictHostPort(raw: string): string {
    var value := Trim(raw);
    if value == "" then ""
    else
      var parts := Split(CutProtocol(value), ':');
      if |parts| <= 2 then Trim(parts[0]) else Trim(parts[|parts| - 2])
  }

  datatype Endpoint = Endpoint(host: string, port: string)

  /** The controller's guess of a service endpoint from a mapping. */
  function InferEndpoint(mapping: string): Option<Endpoint> {
    var trimmed := Trim(mapping);
    if trimmed == "" then None
    else
      var parts := Split(CutProtocol(trimmed), ':');
      if |parts| == 2 && AllDigits(Trim(parts[0])) then Some(Endpoint("127.0.0.1", Trim(parts[0])))
      else if |parts| == 3 && AllDigits(Trim(parts[1])) then
        var host := Trim(parts[0]);
        Some(Endpoint(if host == "" || host == "0.0.0.0" then "127.0.0.1" else host, Trim(parts[1])))
      else None
  }

  /** The agent's reading. Its URL branch is left out: NoUrlSurvivesTheCut shows that no text takes
      it, as the text is cut at its first slash before the prefix is looked for. */
  function AgentHostPort(raw: string): string {
    var value := Trim(raw);
    if value == "" then ""
    else
      var parts := Split(CutProtocol(value), ':');
      if |parts| == 1 then
        if AllDigits(Trim(parts[0])) then Trim(parts[0]) else ""
      else if |parts| == 2 then
        if AllDigits(Trim(parts[0])) then Trim(parts[0])
        else if AllDigits(Trim(parts[1])) then Trim(parts[1])
        else ""
      else if AllDigits(Trim(parts[1])) then Trim(parts[1]) else ""
  }

  predicate HasPrefix(s: string, prefix: string) {
    |prefix| <= |s| && s[..|prefix|] == prefix
  }

  /** The cut leaves a slash exactly in texts that begin with one. */
  lemma CutKeepsSlashIff(s: string)
    ensures '/' in CutProtocol(s) <==> s != "" && s[0] == '/'
  {
  }

  /** So the agent's URL branch is never taken: no text it looks at has one of the prefixes. */
  lemma NoUrlSurvivesTheCut(raw: string)
    ensures !HasPrefix(CutProtocol(Trim(raw)), "http://") && !HasPrefix(CutProtocol(Trim(raw)), "https://")
  {
    CutKeepsSlashIff(Trim(raw));
    assert "http://"[0] == 'h' && "http://"[5] == '/';
    assert "https://"[0] == 'h' && "https://"[6] == '/';
  }

  /** After the cut, every reader looks at the same text the validator looked at. */
  lemma CutAgreesWithValidator(item: string)
    requires ValidatePort(item)
    ensures Trim(item) != "" && CutProtocol(Trim(item)) == ValidatorMain(item).value
  {
    var v := Trim(item);
    if '/' in v {
      var i := IndexOf(v, '/');
      FirstPart(v, '/', i);
      assert Split("", ':') == [""];
    } else {
      assert IndexOf(v, '/') == -1;
    }
  }

  /** A mapping the validator stores is one the adapter can bind, with the same host port the
      conflict detector compares. */
  lemma ValidatedMappingIsBindable(item: string)
    requires ValidatePort(item)
    ensures ParsePortMapping(item).Some?
    ensures ParsePortMapping(item).value.hostPort == ConflictHostPort(item)
    ensures IsPortNumber(ConflictHostPort(item))
  {
    CutAgreesWithValidator(item);
    var v := Trim(item);
    var main := ValidatorMain(item).value;
    TrimKeepsParts(main, ':');
    TrimIsIdempotent(item);
    var parts := Split(main, ':');
    assert parts[0] in parts && parts[1] in parts;
  }

  /** Of the mappings the validator stores, the four readers agree on the host port exactly
      when it is written without a sign: "+80:81" passes the validator, docker binds +80, and
      the agent checks 81. */
  lemma ReadersAgreeIffUnsigned(item: string)
    requires ValidatePort(item)
    ensures
      var bound := ParsePortMapping(item);
      bound.Some? &&
      var port := bound.value.hostPort;
      (AllDigits(port) <==>
        && ConflictHostPort(item) == port
        && InferEndpoint(item) == Some(Endpoint("127.0.0.1", port))
        && AgentHostPort(item) == port)
  {
    ValidatedMappingIsBindable(item);
    CutAgreesWithValidator(item);
  }

  /** The whole failing family: a plus sign in front of any host port. Docker and the conflict
      detector then see the signed text, the agent the container port, the endpoint nothing. */
  lemma SignedHostPortSplitsTheReaders(host: string, container: string)
    requires AllDigits(host) && IsPortNumber(host) && AllDigits(container) && IsPortNumber(container)
    ensures
      var item := "+" + host + ":" + container;
      && ValidatePort(item)
      && ConflictHostPort(item) == "+" + host
      && AgentHostPort(item) == container
      && InferEndpoint(item).None?
  {
    var signed := "+" + host;
    assert signed + [':'] + container == "+" + host + ":" + container;
    assert signed[1..] == host && !IsDigit(signed[0]);
    PlainPair(signed, container);
    assert AllDigits(signed[1..]);
    assert IsPortNumber(signed);
  }

  /** Two port numbers written in digits make a mapping a template may store, with a protocol too. */
  lemma DigitMappingIsAccepted(host: string, container: string)
    requires AllDigits(host) && IsPortNumber(host) && AllDigits(container) && IsPortNumber(container)
    ensures ValidatePort(host + [':'] + container)
  {
    PlainPair(host, container);
  }

  /** A mapping with an address in front is not one the validator stores, but the three readers
      that know the form agree on it. */
  lemma AddressedMapping(address: string, host: string, container: string)
    requires Plain(host) && AllDigits(host) && Plain(container) && AllDigits(container)
    requires ':' !in address && '/' !in address && Trim(address) == address && address != ""
    ensures var item := address + [':'] + (host + [':'] + container);
            && !ValidatePort(item)
            && ConflictHostPort(item) == host && AgentHostPort(item) == host
            && InferEndpoint(item).Some? && InferEndpoint(item).value.port == host
  {
    var tail := host + [':'] + container;
    var item := address + [':'] + tail;
    PlainPair(host, container);
    SplitAtSeparator(address, ':', tail);
    SplitWithoutSeparator(address, ':');
    assert item[0] == address[0] && item[|item| - 1] == container[|container| - 1];
    TrimUnchanged(item);
    assert '/' !in item;
    assert Split(item, ':') == [address, host, container];
  }

  predicate Plain(s: string) {
    s != "" && forall i | 0 <= i < |s| :: s[i] == '+' || IsDigit(s[i])
  }

  lemma PlainPair(host: string, container: string)
    requires Plain(host) && Plain(container)
    ensures
      var item := host + [':'] + container;
      && Trim(item) == item && '/' !in item && CutProtocol(item) == item
      && Split(item, ':') == [host, container]
      && Trim(host) == host && Trim(container) == container
  {
    var item := host + [':'] + container;
    SplitAtSeparator(host, ':', container);
    SplitWithoutSeparator(host, ':');
    SplitWithoutSeparator(container, ':');
    TrimUnchanged(host);
    TrimUnchanged(container);
    TrimUnchanged(item);
  }

  lemma TrimUnchanged(s: string)
    requires s != "" && !IsSpace(s[0]) && !IsSpace(s[|s| - 1])
    ensures Trim(s) == s
  {
  }

  /** The host ports of a list, in order, blanks dropped. */
  function HostPorts(ports: seq<string>): (r: seq<string>)
    ensures forall p | p in r :: p != ""
  {
    if ports == [] then []
    else
      var first := ConflictHostPort(ports[0]);
      (if first == "" then [] else [first]) + HostPorts(ports[1..])
  }

  lemma {:induction false} HostPortsAppend(a: seq<string>, b: seq<string>)
    ensures HostPorts(a + b) == HostPorts(a) + HostPorts(b)
  {
    if a == [] {
      assert a + b == b;
    } else {
      assert (a + b)[0] == a[0] && (a + b)[1..] == a[1..] + b;
      HostPortsAppend(a[1..], b);
      var first := if ConflictHostPort(a[0]) == "" then [] else [ConflictHostPort(a[0])];
      assert first + (HostPorts(a[1..]) + HostPorts(b)) == (first + HostPorts(a[1..])) + HostPorts(b);
    }
  }

  lemma HostPortsSnoc(a: seq<string>, raw: string)
    ensures HostPorts(a + [raw])
         == HostPorts(a) + (if ConflictHostPort(raw) == "" then [] else [ConflictHostPort(raw)])
  {
    HostPortsAppend(a, [raw]);
    assert [raw][1..] == [];
  }

  lemma HostPortsNext(ports: seq<string>, i: nat)
    requires i < |ports|
    ensures HostPorts(ports[..i + 1])
         == HostPorts(ports[..i]) + (if ConflictHostPort(ports[i]) == "" then [] else [ConflictHostPort(ports[i])])
  {
    HostPortsSnoc(ports[..i], ports[i]);
    assert ports[..i + 1] == ports[..i] + [ports[i]];
  }

  /** The host port of a listed mapping is among the host ports of the list. */
  lemma {:induction false} BoundPortIsListed(ports: seq<string>, raw: string)
    requires raw in ports && ConflictHostPort(raw) != ""
    ensures ConflictHostPort(raw) in HostPorts(ports)
  {
    if ports[0] != raw {
      BoundPortIsListed(ports[1..], raw);
    }
  }

  method ExtractRuntimeHostPorts(ports: seq<string>) returns (out: seq<string>)
    ensures out == HostPorts(ports)
  {
    out := [];
    for i := 0 to |ports|
      invariant out == HostPorts(ports[..i])
    {
      HostPortsNext(ports, i);
      var candidate := ConflictHostPort(ports[i]);
      if candidate != "" {
        out := out + [candidate];
      }
    }
    assert ports[..|ports|] == ports;
  }
}
