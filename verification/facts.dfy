/**
 The server-side facts that the configuration compiler adds to every node:
 the server's own version, name and IP address, gathered once from the fact
 provider (Facter) when the compiler is constructed.
 */
module Facts {
  import opened Options

  /** A fact or parameter value as Ruby holds it: a string, or `nil`. */
  datatype Value = Nil | Str(text: string)

  /** The fact provider, as far as this layer sees it: a fact name maps to its
      value, and a name that is absent is a fact the provider answers with `nil`. */
  type Provider = map<string, string>

  /** A string-keyed table of fact values, as handed to `Node#merge`. */
  type FactMap = map<string, Value>

  const ServerVersionKey: string := "serverversion"
  const ServerNameKey: string := "servername"
  const ServerIpKey: string := "serverip"

  /** The only keys the server-fact table may ever hold. */
  const ServerFactKeys: set<string> := {ServerVersionKey, ServerNameKey, ServerIpKey}

  /** The facts the server's name and address are taken from. */
  const FqdnFact: string := "fqdn"
  const IpFact: string := "ipaddress"
  const HostnameFact: string := "hostname"
  const DomainFact: string := "domain"

  /** What the provider answers for one fact name. */
  function Lookup(p: Provider, name: string): Option<string>
  {
    if name in p then Some(p[name]) else None
  }

  /** The provider's answer as a Ruby value. */
  function AsValue(o: Option<string>): Value
  {
    match o
    case None => Nil
    case Some(t) => Str(t)
  }

  /** How `Array#join` renders one element: `nil` becomes the empty string. */
  function JoinText(v: Value): string
  {
    match v
    case Nil => ""
    case Str(t) => t
  }

  /** The servername the table must end up with, stated case by case from the
      provider's answers: the fully qualified name when there is one; otherwise
      hostname and domain joined with "." (a missing hostname joins as ""); and
      with no domain, the hostname itself, which may be `nil`. */
  function ExpectedServerName(p: Provider): Value
  {
    if FqdnFact in p then Str(p[FqdnFact])
    else if DomainFact in p && HostnameFact in p then Str(p[HostnameFact] + "." + p[DomainFact])
    else if DomainFact in p then Str("." + p[DomainFact])
    else if HostnameFact in p then Str(p[HostnameFact])
    else Nil
  }

  /** The declarative description of a correct server-fact table for a given
      server version string and fact provider. */
  ghost predicate IsServerFacts(version: string, p: Provider, facts: FactMap)
  {
    && facts.Keys <= ServerFactKeys
    && ServerVersionKey in facts
    && facts[ServerVersionKey] == Str(version)
    && ServerNameKey in facts
    && facts[ServerNameKey] == ExpectedServerName(p)
    && (ServerIpKey in facts <==> IpFact in p)
    && (IpFact in p ==> facts[ServerIpKey] == Str(p[IpFact]))
  }

  /** The result of gathering the server facts: the table, and the fact names
      the provider could not answer (each gets a warning). */
  datatype Gathering = Gathering(facts: FactMap, unavailable: seq<string>)

  /** Builds the table the way the constructor does: version first, then
      servername from fqdn and serverip from ipaddress when those are not
      `nil`, then the hostname/domain fallback when servername is still `nil`. */
  function SetServerFacts(version: string, p: Provider): (g: Gathering)
    ensures IsServerFacts(version, p, g.facts)
    ensures forall f :: f in g.unavailable <==> (f == FqdnFact || f == IpFact) && f !in p
  {
    var withVersion := map[ServerVersionKey := Str(version)];
    // the two-entry table walked by the code: servername <- fqdn, serverip <- ipaddress
    var fqdn := Lookup(p, FqdnFact);
    var withName := if fqdn.Some? then withVersion[ServerNameKey := Str(fqdn.value)] else withVersion;
    var ip := Lookup(p, IpFact);
    var withIp := if ip.Some? then withName[ServerIpKey := Str(ip.value)] else withName;
    var unavailable := (if fqdn.None? then [FqdnFact] else []) + (if ip.None? then [IpFact] else []);
    if ServerNameKey !in withIp || withIp[ServerNameKey] == Nil then
      var host := AsValue(Lookup(p, HostnameFact));
      var domain := Lookup(p, DomainFact);
      var name := if domain.Some? then Str(JoinText(host) + "." + domain.value) else host;
      Gathering(withIp[ServerNameKey := name], unavailable)
    else
      Gathering(withIp, unavailable)
  }

  /** The description pins the table down completely: two tables that both
      meet it for the same version and provider are the same table. */
  lemma ServerFactsDetermined(version: string, p: Provider, a: FactMap, b: FactMap)
    requires IsServerFacts(version, p, a)
    requires IsServerFacts(version, p, b)
    ensures a == b
  {
  }

  /** So the table built by the constructor is exactly the tables the
      description admits. */
  lemma ServerFactsCharacterized(version: string, p: Provider, facts: FactMap)
    ensures IsServerFacts(version, p, facts) <==> facts == SetServerFacts(version, p).facts
  {
    if IsServerFacts(version, p, facts) {
      ServerFactsDetermined(version, p, facts, SetServerFacts(version, p).facts);
    }
  }

  /** The server's own version, fqdn and IP address all available. */
  lemma FullyAnsweredExample()
    ensures SetServerFacts("1", map[FqdnFact := "my.server.com", IpFact := "my.ip.address"]).facts
            == map[ServerVersionKey := Str("1"), ServerNameKey := Str("my.server.com"), ServerIpKey := Str("my.ip.address")]
  {
  }

  /** No fqdn: the name is built from hostname and domain, and no warning is
      issued for the hostname or domain lookups. */
  lemma HostAndDomainExample()
    ensures var g := SetServerFacts("1", map[HostnameFact := "h", DomainFact := "example.com", IpFact := "10.0.0.1"]);
            && g.facts[ServerNameKey] == Str("h.example.com")
            && g.unavailable == [FqdnFact]
  {
  }

  /** Neither fqdn nor hostname nor domain: the servername key is still
      present, holding `nil`, while a missing ipaddress leaves serverip out. */
  lemma NothingAnsweredExample()
    ensures var g := SetServerFacts("1", map[]);
            && g.facts == map[ServerVersionKey := Str("1"), ServerNameKey := Nil]
            && FqdnFact in g.unavailable && IpFact in g.unavailable
  {
  }
}
