/** `CloudFrontDistributionStackCreator` construction and the hosted-zone id
    lookup. The Route 53 `list_hosted_zones` response is given as the list of
    its `(Name, Id)` records. */
module Create {
  import opened Results

  datatype HostedZone = HostedZone(name: string, id: string)

  datatype Error =
    | IndexError                        // `Id.split('/')[2]` with fewer than three parts
    | ZoneNotFound(domainName: string)  // the `Exception` raised after the scan

  function Message(e: Error): string
  {
    match e
    case IndexError => "list index out of range"
    case ZoneNotFound(d) => "Could not find hosted zone for domain name '" + d + "'"
  }

  /** The text tells the two errors apart, and names the domain exactly. */
  lemma MessageIdentifiesError(e1: Error, e2: Error)
    ensures Message(e1) == Message(e2) ==> e1 == e2
  {
    var m1, m2 := Message(e1), Message(e2);
    var prefix := "Could not find hosted zone for domain name '";
    if e1.ZoneNotFound? && e2.ZoneNotFound? {
      assert e1.domainName == m1[|prefix|..|m1| - 1];
      assert e2.domainName == m2[|prefix|..|m2| - 1];
    } else if e1 != e2 {
      var e := if e1.ZoneNotFound? then e1 else e2;
      assert Message(e)[0] == prefix[0] == 'C';
      assert "list index out of range"[0] == 'l';
    }
  }

  /** Python's `str.split(sep)` with an explicit separator: the parts between
      separators, empty parts included. */
  function Split(s: string, sep: char): (parts: seq<string>)
    ensures |parts| >= 1
    ensures forall i :: 0 <= i < |parts| ==> sep !in parts[i]
    ensures Join(parts, sep) == s
  {
    if s == [] then [[]]
    else
      var rest := Split(s[1..], sep);
      if s[0] == sep then
        assert ([[]] + rest)[1..] == rest;
        [[]] + rest
      else
        var parts := [[s[0]] + rest[0]] + rest[1..];
        assert parts[1..] == rest[1..];
        assert s == [s[0]] + s[1..];
        parts
  }

  /** `sep.join(parts)`, the inverse of `Split`. */
  function Join(parts: seq<string>, sep: char): string
    requires |parts| >= 1
  {
    if |parts| == 1 then parts[0] else parts[0] + [sep] + Join(parts[1..], sep)
  }

  /** `Name in [domain, domain + '.']`: exact, case-sensitive. */
  predicate Matches(zone: HostedZone, domainName: string)
  {
    zone.name == domainName || zone.name == domainName + "."
  }

  /** A zone matches under the domain name itself and under that name with one
      trailing dot, and under no other name: not with a second dot, and not a
      name that merely ends with the domain name. */
  lemma MatchesNameOrOneDot(zone: HostedZone, domainName: string)
    ensures Matches(HostedZone(domainName, zone.id), domainName)
    ensures Matches(HostedZone(domainName + ".", zone.id), domainName)
    ensures !Matches(HostedZone(domainName + "..", zone.id), domainName)
    ensures !Matches(HostedZone("www." + domainName, zone.id), domainName)
    ensures Matches(zone, domainName) ==>
      |domainName| <= |zone.name| <= |domainName| + 1 && zone.name[..|domainName|] == domainName
  {
    assert |"www." + domainName| == |domainName| + 4;
  }

  /** The position of the last zone whose name matches. */
  function LastMatch(zones: seq<HostedZone>, domainName: string): (r: Option<nat>)
    ensures r.Some? ==> r.value < |zones| && Matches(zones[r.value], domainName)
    ensures r.Some? ==> forall j :: r.value < j < |zones| ==> !Matches(zones[j], domainName)
    ensures r.None? <==> forall j :: 0 <= j < |zones| ==> !Matches(zones[j], domainName)
    decreases |zones|
  {
    if zones == [] then None
    else if Matches(zones[|zones| - 1], domainName) then Some(|zones| - 1)
    else
      var r := LastMatch(zones[..|zones| - 1], domainName);
      assert forall j :: 0 <= j < |zones| - 1 ==> zones[..|zones| - 1][j] == zones[j];
      r
  }

  /** Some matching zone's id has fewer than three `/`-separated parts. */
  ghost predicate HasShortMatchingId(zones: seq<HostedZone>, domainName: string)
  {
    exists i :: 0 <= i < |zones| && Matches(zones[i], domainName) && |Split(zones[i].id, '/')| < 3
  }

  /** What the lookup yields: an index error if any matching zone has a short
      id; otherwise the third id segment of the LAST matching zone, which must
      be non-empty; otherwise "not found". */
  ghost function ResolveZone(zones: seq<HostedZone>, domainName: string): (r: Result<string, Error>)
    ensures r.Success? ==> r.value != ""
    ensures r.Failure? ==> r.error in {IndexError, ZoneNotFound(domainName)}
  {
    if HasShortMatchingId(zones, domainName) then Failure(IndexError)
    else match LastMatch(zones, domainName)
      case None => Failure(ZoneNotFound(domainName))
      case Some(i) =>
        var id := Split(zones[i].id, '/')[2];
        if id == "" then Failure(ZoneNotFound(domainName)) else Success(id)
  }

  /** A successful lookup returns the non-empty third id segment of a matching
      zone that no later zone matches; with no matching zone the lookup fails
      with "not found"; it fails with an index error exactly when a matching
      zone has a short id. */
  lemma ResolveZoneMeaning(zones: seq<HostedZone>, domainName: string)
    ensures var r := ResolveZone(zones, domainName);
      && (r.Success? ==>
            exists i :: 0 <= i < |zones| && Matches(zones[i], domainName)
              && |Split(zones[i].id, '/')| >= 3 && Split(zones[i].id, '/')[2] == r.value
              && forall j :: i < j < |zones| ==> !Matches(zones[j], domainName))
      && (r.Success? ==> r.value != "")
      && ((forall j :: 0 <= j < |zones| ==> !Matches(zones[j], domainName)) ==> r == Failure(ZoneNotFound(domainName)))
      && (r == Failure(IndexError) <==> HasShortMatchingId(zones, domainName))
  {
  }

  /** The id the accumulator holds after scanning `zones` without an index error. */
  ghost function Accumulated(zones: seq<HostedZone>, domainName: string): Option<string>
    requires !HasShortMatchingId(zones, domainName)
  {
    match LastMatch(zones, domainName)
    case None => None
    case Some(i) => Some(Split(zones[i].id, '/')[2])
  }

  /** `get_hosted_zone_id`: scans every zone, overwriting the accumulator on
      each match, and fails unless the final value is a non-empty string. */
  method GetHostedZoneId(domainName: string, hostedZones: seq<HostedZone>) returns (r: Result<string, Error>)
    ensures r == ResolveZone(hostedZones, domainName)
  {
    var hostedZoneId: Option<string> := None;
    for i := 0 to |hostedZones|
      invariant !HasShortMatchingId(hostedZones[..i], domainName)
      invariant hostedZoneId == Accumulated(hostedZones[..i], domainName)
    {
      assert hostedZones[..i + 1][..i] == hostedZones[..i];
      var item := hostedZones[i];
      if item.name in [domainName, domainName + "."] {
        var parts := Split(item.id, '/');
        if |parts| < 3 {
          assert Matches(hostedZones[i], domainName) && |Split(hostedZones[i].id, '/')| < 3;
          return Failure(IndexError);
        }
        hostedZoneId := Some(parts[2]);
      }
      assert hostedZones[..i + 1][i] == item;
    }
    assert hostedZones[..|hostedZones|] == hostedZones;
    if hostedZoneId.Some? && hostedZoneId.value != "" {
      return Success(hostedZoneId.value);
    }
    return Failure(ZoneNotFound(domainName));
  }

  /** `Split` is the only way to cut `s` into separator-free parts that join
      back to `s`. */
  lemma {:induction false} SplitUnique(s: string, sep: char, parts: seq<string>)
    requires |parts| >= 1 && forall i :: 0 <= i < |parts| ==> sep !in parts[i]
    requires Join(parts, sep) == s
    ensures Split(s, sep) == parts
    decreases |s|, |parts[0]|
  {
    if |parts| == 1 {
      if s != [] {
        assert s[0] in parts[0];
        SplitUnique(s[1..], sep, [parts[0][1..]]);
      }
    } else if parts[0] == [] {
      assert s == [sep] + Join(parts[1..], sep);
      assert s[1..] == Join(parts[1..], sep);
      SplitUnique(s[1..], sep, parts[1..]);
    } else {
      var tail := [parts[0][1..]] + parts[1..];
      assert s == [parts[0][0]] + (parts[0][1..] + [sep] + Join(parts[1..], sep));
      assert Join(tail, sep) == s[1..];
      assert s[0] == parts[0][0] && s[0] in parts[0];
      SplitUnique(s[1..], sep, tail);
      assert s[0] != sep;
      assert [s[0]] + tail[0] == parts[0];
      assert tail[1..] == parts[1..];
      assert [[s[0]] + tail[0]] + tail[1..] == parts;
    }
  }

  /** Splitting three separator-free pieces joined by the separator gives them back. */
  lemma SplitThree(a: string, b: string, c: string, sep: char)
    requires sep !in a && sep !in b && sep !in c
    ensures Split(a + [sep] + b + [sep] + c, sep) == [a, b, c]
  {
    var parts := [a, b, c];
    assert parts[1..] == [b, c] && parts[1..][1..] == [c];
    assert Join([c], sep) == c;
    assert Join([b, c], sep) == b + [sep] + c;
    assert Join(parts, sep) == a + [sep] + (b + [sep] + c);
    assert a + [sep] + (b + [sep] + c) == a + [sep] + b + [sep] + c;
    SplitUnique(a + [sep] + b + [sep] + c, sep, parts);
  }

  /** For the example lemmas below: a hosted zone id `/hostedzone/<digits>` is
      its three parts joined by `/`. */
  lemma HostedZonePath(digits: string)
    ensures "" + ['/'] + "hostedzone" + ['/'] + digits == "/hostedzone/" + digits
  {
    assert "" + ['/'] + "hostedzone" + ['/'] == "/hostedzone/";
  }

  /** Appending a zone that does not match leaves the outcome unchanged. */
  lemma ResolveAppendOther(zones: seq<HostedZone>, zone: HostedZone, domainName: string)
    requires !Matches(zone, domainName)
    ensures ResolveZone(zones + [zone], domainName) == ResolveZone(zones, domainName)
  {
    var all := zones + [zone];
    assert all[..|zones|] == zones;
    assert HasShortMatchingId(all, domainName) == HasShortMatchingId(zones, domainName) by {
      if HasShortMatchingId(all, domainName) {
        var i :| 0 <= i < |all| && Matches(all[i], domainName) && |Split(all[i].id, '/')| < 3;
        assert all[i] == zones[i];
      }
      if HasShortMatchingId(zones, domainName) {
        var i :| 0 <= i < |zones| && Matches(zones[i], domainName) && |Split(zones[i].id, '/')| < 3;
        assert all[i] == zones[i];
      }
    }
  }

  /** Appending a matching zone with a well-formed id overrides every earlier
      match: the last match wins. */
  lemma ResolveAppendMatch(zones: seq<HostedZone>, zone: HostedZone, domainName: string)
    requires Matches(zone, domainName) && |Split(zone.id, '/')| >= 3
    requires !HasShortMatchingId(zones, domainName)
    ensures var id := Split(zone.id, '/')[2];
      ResolveZone(zones + [zone], domainName) == if id == "" then Failure(ZoneNotFound(domainName)) else Success(id)
  {
    var all := zones + [zone];
    assert all[..|zones|] == zones;
    forall i | 0 <= i < |all| && Matches(all[i], domainName)
      ensures |Split(all[i].id, '/')| >= 3
    {
      if i < |zones| {
        assert all[i] == zones[i];
      }
    }
    assert LastMatch(all, domainName) == Some(|zones|);
  }

  /** Three zones of which only the first matches resolve to that zone's id. */
  lemma OnlyFirstOfThreeMatches(z0: HostedZone, z1: HostedZone, z2: HostedZone, domainName: string, id: string)
    requires Matches(z0, domainName) && Split(z0.id, '/') == ["", "hostedzone", id] && id != ""
    requires !Matches(z1, domainName) && !Matches(z2, domainName)
    ensures ResolveZone([z0, z1, z2], domainName) == Success(id)
  {
    var zones := [z0, z1, z2];
    forall i | 0 <= i < 3 && Matches(zones[i], domainName)
      ensures |Split(zones[i].id, '/')| >= 3
    {
      assert i == 0;
    }
    var last := LastMatch(zones, domainName);
    assert Matches(zones[0], domainName);
    assert last.Some? && !Matches(zones[1], domainName) && !Matches(zones[2], domainName);
    assert last.value == 0;
  }

  /** Of two matching zones with well-formed ids, the second decides. */
  lemma TwoMatchingZones(z0: HostedZone, z1: HostedZone, domainName: string)
    requires Matches(z0, domainName) && |Split(z0.id, '/')| >= 3
    requires Matches(z1, domainName) && |Split(z1.id, '/')| >= 3
    ensures var id := Split(z1.id, '/')[2];
      ResolveZone([z0, z1], domainName) == if id == "" then Failure(ZoneNotFound(domainName)) else Success(id)
  {
    ResolveAppendMatch([], z0, domainName);
    ResolveAppendMatch([z0], z1, domainName);
    assert [z0] + [z1] == [z0, z1];
  }

  /** For `ExampleZonesResolve`: the id `/hostedzone/1234` splits into three parts. */
  lemma ExampleZoneFacts()
    ensures Split("/hostedzone/1234", '/') == ["", "hostedzone", "1234"]
  {
    SplitThree("", "hostedzone", "1234", '/');
    HostedZonePath("1234");
    assert "/hostedzone/" + "1234" == "/hostedzone/1234";
  }

  /** For `ExampleZonesResolve`: only the first test zone matches `example.com`. */
  lemma ExampleZoneMatches()
    ensures Matches(HostedZone("example.com", "/hostedzone/1234"), "example.com")
    ensures !Matches(HostedZone("notreal.dev", "/hostedzone/5678"), "example.com")
    ensures !Matches(HostedZone("otherwebsite.net", "/hostedzone/9022"), "example.com")
  {
  }

  /** The zones of the source's own test, looked up for `example.com`, give `1234`. */
  lemma ExampleZonesResolve()
    ensures ResolveZone([HostedZone("example.com", "/hostedzone/1234"),
                         HostedZone("notreal.dev", "/hostedzone/5678"),
                         HostedZone("otherwebsite.net", "/hostedzone/9022")], "example.com")
      == Success("1234")
  {
    ExampleZoneFacts();
    ExampleZoneMatches();
    OnlyFirstOfThreeMatches(HostedZone("example.com", "/hostedzone/1234"),
                            HostedZone("notreal.dev", "/hostedzone/5678"),
                            HostedZone("otherwebsite.net", "/hostedzone/9022"), "example.com", "1234");
  }

  /** For `LastMatchWins` and `EmptySegmentIsNotFound`: `/hostedzone/1` splits into three parts. */
  lemma ZoneIdOneFacts()
    ensures Split("/hostedzone/1", '/') == ["", "hostedzone", "1"]
  {
    SplitThree("", "hostedzone", "1", '/');
    HostedZonePath("1");
    assert "/hostedzone/" + "1" == "/hostedzone/1";
  }

  /** For `LastMatchWins`: `/hostedzone/2` splits into three parts. */
  lemma ZoneIdTwoFacts()
    ensures Split("/hostedzone/2", '/') == ["", "hostedzone", "2"]
  {
    SplitThree("", "hostedzone", "2", '/');
    HostedZonePath("2");
    assert "/hostedzone/" + "2" == "/hostedzone/2";
  }

  /** For `EmptySegmentIsNotFound`: `/hostedzone/` splits into three parts, the last one empty. */
  lemma EmptyZoneIdFacts()
    ensures Split("/hostedzone/", '/') == ["", "hostedzone", ""]
  {
    SplitThree("", "hostedzone", "", '/');
    HostedZonePath("");
    assert "/hostedzone/" + "" == "/hostedzone/";
  }

  /** For `LastMatchWins` and `EmptySegmentIsNotFound`: the zones named with and
      without the trailing dot both match `example.com`. */
  lemma ZoneIdMatches()
    ensures Matches(HostedZone("example.com", "/hostedzone/1"), "example.com")
    ensures Matches(HostedZone("example.com.", "/hostedzone/2"), "example.com")
    ensures Matches(HostedZone("example.com.", "/hostedzone/"), "example.com")
  {
  }

  /** When two zones match (with and without the trailing dot), the later one
      decides, because the scan never stops early. */
  lemma LastMatchWins()
    ensures ResolveZone([HostedZone("example.com", "/hostedzone/1"),
                         HostedZone("example.com.", "/hostedzone/2")], "example.com")
      == Success("2")
  {
    ZoneIdOneFacts();
    ZoneIdTwoFacts();
    ZoneIdMatches();
    TwoMatchingZones(HostedZone("example.com", "/hostedzone/1"), HostedZone("example.com.", "/hostedzone/2"), "example.com");
  }

  /** A later matching zone with an empty third segment wipes out an earlier
      good match: the empty id is falsy and the lookup fails. */
  lemma EmptySegmentIsNotFound()
    ensures ResolveZone([HostedZone("example.com", "/hostedzone/1"),
                         HostedZone("example.com.", "/hostedzone/")], "example.com")
      == Failure(ZoneNotFound("example.com"))
  {
    ZoneIdOneFacts();
    EmptyZoneIdFacts();
    ZoneIdMatches();
    TwoMatchingZones(HostedZone("example.com", "/hostedzone/1"), HostedZone("example.com.", "/hostedzone/"), "example.com");
  }

  /** A matching zone whose id has fewer than three parts is an index error,
      even when a later matching zone would have given an id. */
  lemma ShortIdIsIndexError()
    ensures ResolveZone([HostedZone("example.com", "1234"),
                         HostedZone("example.com.", "/hostedzone/5678")], "example.com")
      == Failure(IndexError)
  {
    var zones := [HostedZone("example.com", "1234"), HostedZone("example.com.", "/hostedzone/5678")];
    SplitUnique("1234", '/', ["1234"]);
    assert Matches(zones[0], "example.com") && |Split(zones[0].id, '/')| < 3;
  }

  /** Matching is exact and case-sensitive: neither a subdomain nor a
      differently cased name is taken for the domain. */
  lemma MatchingIsExact()
    ensures ResolveZone([HostedZone("www.example.com", "/hostedzone/1"),
                         HostedZone("Example.com", "/hostedzone/2")], "example.com")
      == Failure(ZoneNotFound("example.com"))
  {
    var zones := [HostedZone("www.example.com", "/hostedzone/1"), HostedZone("Example.com", "/hostedzone/2")];
    assert !Matches(zones[0], "example.com") && !Matches(zones[1], "example.com");
  }

  /** The stack template under construction; its resources are not modelled. */
  datatype Template = Template(resources: seq<string>)

  class CloudFrontDistributionStackCreator {
    var domainName: string
    var template: Template
    var hostedZone: string

    constructor (domainName: string, hostedZone: string)
      ensures this.domainName == domainName && template == Template([]) && this.hostedZone == hostedZone
    {
      this.domainName := domainName;
      template := Template([]);
      this.hostedZone := hostedZone;
    }
  }

  /** `CloudFrontDistributionStackCreator(domain_name)`: stores the domain name
      and an empty template, then looks up the hosted zone; a failed lookup
      fails the construction and no object results. */
  method NewStackCreator(domainName: string, hostedZones: seq<HostedZone>)
    returns (r: Result<CloudFrontDistributionStackCreator, Error>)
    ensures r.Failure? <==> ResolveZone(hostedZones, domainName).Failure?
    ensures r.Failure? ==> r.error == ResolveZone(hostedZones, domainName).error
    ensures r.Success? ==>
      && fresh(r.value)
      && r.value.domainName == domainName
      && r.value.template == Template([])
      && r.value.hostedZone == ResolveZone(hostedZones, domainName).value
  {
    var zoneId := GetHostedZoneId(domainName, hostedZones);
    if zoneId.Failure? {
      return Failure(zoneId.error);
    }
    var creator := new CloudFrontDistributionStackCreator(domainName, zoneId.value);
    return Success(creator);
  }
}
