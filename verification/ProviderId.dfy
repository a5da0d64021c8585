/** Provider IDs: the printer, the parser, and how they fit together. */
module ProviderId {
  import opened Options
  import Uuid
  import opened ProviderSpec
  import Webhook

  const PREFIX := "nico://"
  const LEGACY_PREFIX := "nvidia-carbide://"

  datatype ProviderId = ProviderId(org: string, tenant: string, site: string, instance: Uuid.Uuid)

  datatype ParseError = BadPrefix | BadSegmentCount | BadInstance

  datatype ParseResult = Parsed(id: ProviderId) | Rejected(error: ParseError)

  type AltUuid = string -> Option<Uuid.Uuid>

  function Print(p: ProviderId): string {
    PREFIX + p.org + "/" + p.tenant + "/" + p.site + "/" + Uuid.Print(p.instance)
  }

  /** strings.Split(s, "/"). */
  function Split(s: string): (parts: seq<string>)
    ensures |parts| >= 1
  {
    if '/' !in s then [s]
    else
      var i := FirstSlash(s);
      [s[..i]] + Split(s[i + 1..])
  }

  function FirstSlash(s: string): (i: nat)
    requires '/' in s
    ensures i < |s| && s[i] == '/' && '/' !in s[..i]
  {
    if s[0] == '/' then 0
    else
      var i := FirstSlash(s[1..]);
      assert s[..i + 1] == [s[0]] + s[1..][..i];
      i + 1
  }

  function ParseSegments(parts: seq<string>, alt: AltUuid): ParseResult {
    if |parts| == 3 then
      var u := Uuid.Parse(parts[2], alt);
      if u.None? then Rejected(BadInstance) else Parsed(ProviderId(parts[0], "", parts[1], u.value))
    else if |parts| == 4 then
      var u := Uuid.Parse(parts[3], alt);
      if u.None? then Rejected(BadInstance) else Parsed(ProviderId(parts[0], parts[1], parts[2], u.value))
    else Rejected(BadSegmentCount)
  }

  function Parse(s: string, alt: AltUuid): ParseResult {
    if PREFIX <= s then ParseSegments(Split(s[|PREFIX|..]), alt)
    else if LEGACY_PREFIX <= s then ParseSegments(Split(s[|LEGACY_PREFIX|..]), alt)
    else Rejected(BadPrefix)
  }

  predicate SlashFree(p: ProviderId) {
    '/' !in p.org && '/' !in p.tenant && '/' !in p.site
  }

  function Slashes(s: string): nat {
    if s == [] then 0 else (if s[0] == '/' then 1 else 0) + Slashes(s[1..])
  }

  lemma {:induction false} SlashesAppend(a: string, b: string)
    ensures Slashes(a + b) == Slashes(a) + Slashes(b)
  {
    if a == [] {
      assert a + b == b;
    } else {
      assert (a + b)[1..] == a[1..] + b;
      SlashesAppend(a[1..], b);
    }
  }

  lemma {:induction false} NoSlashes(s: string)
    ensures Slashes(s) == 0 <==> '/' !in s
  {
    if s != [] {
      NoSlashes(s[1..]);
      assert s == [s[0]] + s[1..];
    }
  }

  /** One more part than there are slashes. */
  lemma {:induction false} SplitCount(s: string)
    ensures |Split(s)| == 1 + Slashes(s)
  {
    NoSlashes(s);
    if '/' in s {
      var i := FirstSlash(s);
      SplitCount(s[i + 1..]);
      assert s == s[..i] + s[i..];
      SlashesAppend(s[..i], s[i..]);
      NoSlashes(s[..i]);
    }
  }

  lemma {:induction false} SplitPartsHaveNoSlash(s: string)
    ensures forall part :: part in Split(s) ==> '/' !in part
  {
    if '/' in s {
      SplitPartsHaveNoSlash(s[FirstSlash(s) + 1..]);
    }
  }

  lemma {:induction false} FirstSlashIs(s: string, i: nat)
    requires i < |s| && s[i] == '/' && '/' !in s[..i]
    ensures FirstSlash(s) == i
  {
    if i > 0 {
      assert s[0] in s[..i];
      assert s[..i] == [s[0]] + s[1..][..i - 1];
      FirstSlashIs(s[1..], i - 1);
    }
  }

  lemma SplitFirst(head: string, rest: string)
    requires '/' !in head
    ensures Split(head + "/" + rest) == [head] + Split(rest)
  {
    var s := head + "/" + rest;
    assert s[..|head|] == head && s[|head| + 1..] == rest;
    FirstSlashIs(s, |head|);
  }

  lemma SplitCons(head: string, rest: string, parts: seq<string>)
    requires '/' !in head && Split(rest) == parts
    ensures Split(head + "/" + rest) == [head] + parts
  {
    SplitFirst(head, rest);
  }

  lemma SplitTwo(a: string, b: string)
    requires '/' !in a && '/' !in b
    ensures Split(a + "/" + b) == [a, b]
  {
    SplitFirst(a, b);
  }

  lemma SplitThree(a: string, b: string, c: string)
    requires '/' !in a && '/' !in b && '/' !in c
    ensures Split(a + "/" + (b + "/" + c)) == [a] + [b, c]
  {
    SplitTwo(b, c);
    SplitCons(a, b + "/" + c, [b, c]);
  }

  /** The text after the prefix, grouped from the right as Split reads it. */
  function Body(org: string, tenant: string, site: string, last: string): string {
    org + "/" + (tenant + "/" + (site + "/" + last))
  }

  lemma PrintBody(p: ProviderId)
    ensures Print(p) == PREFIX + Body(p.org, p.tenant, p.site, Uuid.Print(p.instance))
    ensures PREFIX <= Print(p)
    ensures Print(p)[|PREFIX|..] == Body(p.org, p.tenant, p.site, Uuid.Print(p.instance))
  {
    var u := Uuid.Print(p.instance);
    assert PREFIX + p.org + "/" + p.tenant + "/" + p.site + "/" + u == PREFIX + Body(p.org, p.tenant, p.site, u);
  }

  lemma SplitBody(org: string, tenant: string, site: string, last: string)
    requires '/' !in org && '/' !in tenant && '/' !in site && '/' !in last
    ensures Split(Body(org, tenant, site, last)) == [org] + ([tenant] + [site, last])
  {
    SplitThree(tenant, site, last);
    SplitCons(org, tenant + "/" + (site + "/" + last), [tenant] + [site, last]);
  }

  lemma SlashesBody(org: string, tenant: string, site: string, last: string)
    ensures Slashes(Body(org, tenant, site, last)) == 3 + Slashes(org) + Slashes(tenant) + Slashes(site) + Slashes(last)
  {
    var two := site + "/" + last;
    var three := tenant + "/" + two;
    SlashesJoin(site, last);
    SlashesJoin(tenant, two);
    SlashesJoin(org, three);
  }

  lemma SlashesJoin(a: string, b: string)
    ensures Slashes(a + "/" + b) == 1 + Slashes(a) + Slashes(b)
  {
    SlashesAppend(a, "/");
    SlashesAppend(a + "/", b);
    assert Slashes("/") == 1 by {
      assert "/"[1..] == [];
    }
  }

  /** Parsing what was printed gives the ID back exactly when org, tenant and
      site contain no '/', and otherwise fails: never a different ID. */
  lemma RoundTrip(p: ProviderId, alt: AltUuid)
    ensures Parse(Print(p), alt) == if SlashFree(p) then Parsed(p) else Rejected(BadSegmentCount)
  {
    var u := Uuid.Print(p.instance);
    PrintBody(p);
    Uuid.PrintHasNoSlash(p.instance);
    Uuid.ParsePrint(p.instance, alt);
    ParseBody(p.org, p.tenant, p.site, u, alt);
  }

  lemma ParseBody(org: string, tenant: string, site: string, last: string, alt: AltUuid)
    requires '/' !in last
    ensures ParseSegments(Split(Body(org, tenant, site, last)), alt)
            == if '/' in org || '/' in tenant || '/' in site then Rejected(BadSegmentCount)
               else if Uuid.Parse(last, alt).None? then Rejected(BadInstance)
               else Parsed(ProviderId(org, tenant, site, Uuid.Parse(last, alt).value))
  {
    if '/' in org || '/' in tenant || '/' in site {
      SlashesBody(org, tenant, site, last);
      NoSlashes(org);
      NoSlashes(tenant);
      NoSlashes(site);
      SplitCount(Body(org, tenant, site, last));
    } else {
      SplitBody(org, tenant, site, last);
    }
  }

  /** Every accepted text, whatever its prefix, segment count or UUID spelling,
      has a canonical form: four segments under the current prefix, which parses
      to the same ID and is its own canonical form. */
  lemma Canonicalisation(s: string, alt: AltUuid)
    requires Parse(s, alt).Parsed?
    ensures var p := Parse(s, alt).id;
            && SlashFree(p)
            && PREFIX <= Print(p) && |Split(Print(p)[|PREFIX|..])| == 4
            && Parse(Print(p), alt) == Parsed(p)
            && Print(Parse(Print(p), alt).id) == Print(p)
  {
    var p := Parse(s, alt).id;
    var body := if PREFIX <= s then s[|PREFIX|..] else s[|LEGACY_PREFIX|..];
    SplitPartsHaveNoSlash(body);
    AcceptedIsSlashFree(Split(body), alt);
    RoundTrip(p, alt);
    PrintBody(p);
    Uuid.PrintHasNoSlash(p.instance);
    SplitBody(p.org, p.tenant, p.site, Uuid.Print(p.instance));
  }

  lemma AcceptedIsSlashFree(parts: seq<string>, alt: AltUuid)
    requires ParseSegments(parts, alt).Parsed? && forall part :: part in parts ==> '/' !in part
    ensures SlashFree(ParseSegments(parts, alt).id)
  {
  }

  /** A three-segment ID, under either prefix, keeps its two names and gets an empty tenant. */
  lemma LegacySegments(prefix: string, org: string, site: string, u: Uuid.Uuid, alt: AltUuid)
    requires prefix == PREFIX || prefix == LEGACY_PREFIX
    requires '/' !in org && '/' !in site
    ensures Parse(prefix + org + "/" + site + "/" + Uuid.Print(u), alt) == Parsed(ProviderId(org, "", site, u))
  {
    Uuid.PrintHasNoSlash(u);
    Uuid.ParsePrint(u, alt);
    ParseThreeSegments(prefix, org, site, Uuid.Print(u), alt);
  }

  lemma StripPrefix(prefix: string, body: string, alt: AltUuid)
    requires prefix == PREFIX || prefix == LEGACY_PREFIX
    ensures Parse(prefix + body, alt) == ParseSegments(Split(body), alt)
  {
    var s := prefix + body;
    assert prefix <= s && s[|prefix|..] == body;
    assert prefix == LEGACY_PREFIX ==> s[1] == 'v';
  }

  lemma ParseThreeSegments(prefix: string, org: string, site: string, last: string, alt: AltUuid)
    requires prefix == PREFIX || prefix == LEGACY_PREFIX
    requires '/' !in org && '/' !in site && '/' !in last && Uuid.Parse(last, alt).Some?
    ensures Parse(prefix + org + "/" + site + "/" + last, alt)
            == Parsed(ProviderId(org, "", site, Uuid.Parse(last, alt).value))
  {
    var s := prefix + org + "/" + site + "/" + last;
    var body := org + "/" + (site + "/" + last);
    assert s == prefix + body;
    StripPrefix(prefix, body, alt);
    SplitThree(org, site, last);
  }

  /** Free of '/' for sure (the hyphenated form), or by inspection. */
  predicate SafeName(text: string) {
    |text| == 36 || '/' !in text
  }

  /** The ID that Create writes for an admitted spec is read back unchanged
      exactly when the organisation has no '/', and neither have site and tenant
      where they are spelled in another form than the hyphenated one. */
  lemma AdmittedSpecRoundTrip(spec: Spec, old_: Webhook.OldObject, org: string, u: Uuid.Uuid, alt: AltUuid)
    requires Webhook.Handle(Some(Webhook.Given(spec)), old_, text => Uuid.Parse(text, alt).Some?) == Webhook.Allowed
    requires !Webhook.Blank(spec)
    ensures var p := ProviderId(org, spec.tenantId, spec.siteId, u);
            Parse(Print(p), alt) == Parsed(p) <==> '/' !in org && SafeName(spec.siteId) && SafeName(spec.tenantId)
  {
    if |spec.siteId| == 36 {
      Uuid.HyphenatedHasNoSlash(spec.siteId);
    }
    if |spec.tenantId| == 36 {
      Uuid.HyphenatedHasNoSlash(spec.tenantId);
    }
    RoundTrip(ProviderId(org, spec.tenantId, spec.siteId, u), alt);
  }

  /** The text of an ID: what is printed, and what is read under either prefix. */
  lemma TextOf(p: ProviderId, alt: AltUuid)
    ensures Print(p) == "nico://" + p.org + "/" + p.tenant + "/" + p.site + "/" + Uuid.Print(p.instance)
    ensures '/' !in p.org && '/' !in p.tenant && '/' !in p.site ==>
              && Parse("nico://" + Body(p.org, p.tenant, p.site, Uuid.Print(p.instance)), alt) == Parsed(p)
              && Parse("nvidia-carbide://" + Body(p.org, p.tenant, p.site, Uuid.Print(p.instance)), alt) == Parsed(p)
  {
    var u := Uuid.Print(p.instance);
    Uuid.PrintHasNoSlash(p.instance);
    Uuid.ParsePrint(p.instance, alt);
    ParseBody(p.org, p.tenant, p.site, u, alt);
    StripPrefix(PREFIX, Body(p.org, p.tenant, p.site, u), alt);
    StripPrefix(LEGACY_PREFIX, Body(p.org, p.tenant, p.site, u), alt);
  }

  lemma BodyText(org: string, tenant: string, site: string, last: string)
    ensures Body(org, tenant, site, last) == org + "/" + tenant + "/" + site + "/" + last
  {
  }
}
