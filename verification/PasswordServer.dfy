/** The hashing service: a registry of hash versions, and routing of each stored hash to the version
    that made it. */
module PasswordServer {
  import opened Wrappers
  import V1 = PasswordV1

  type Salt = seq<V1.Byte>

  datatype HashService = HashService(
    version: string,
    hash: (string, Salt) -> string,
    compare: (string, string) -> Result<bool, V1.Error>)

  datatype GrpcServer = GrpcServer(services: map<string, HashService>, currentVersion: string)

  datatype Error = EmptyPlainText | UnknownVersion | Failed(cause: V1.Error)

  datatype Compared = Compared(matches: bool, needsUpgrade: bool)

  /** What registering the services in order amounts to: the last one registered under a version
      serves it, and the last one of all makes new hashes. */
  ghost function Registered(services: seq<HashService>): GrpcServer {
    if services == [] then GrpcServer(map[], "")
    else
      var last := services[|services| - 1];
      GrpcServer(Registered(services[..|services| - 1]).services[last.version := last], last.version)
  }

  method NewGrpcServer(services: seq<HashService>) returns (s: GrpcServer)
    ensures s == Registered(services)
  {
    var svcMap: map<string, HashService> := map[];
    var latest := "";
    for i := 0 to |services|
      invariant GrpcServer(svcMap, latest) == Registered(services[..i])
    {
      svcMap := svcMap[services[i].version := services[i]];
      latest := services[i].version;
      assert services[..i + 1][..i] == services[..i];
    }
    assert services[..|services|] == services;
    s := GrpcServer(svcMap, latest);
  }

  /** Position of the first `c`, or -1. */
  function IndexOf(s: string, c: char): (i: int)
    ensures -1 <= i < |s|
    ensures i == -1 <==> c !in s
    ensures i >= 0 ==> s[i] == c && c !in s[..i]
  {
    if s == "" then -1
    else if s[0] == c then 0
    else
      var i := IndexOf(s[1..], c);
      assert s == [s[0]] + s[1..];
      assert i >= 0 ==> s[..i + 1] == [s[0]] + s[1..][..i];
      if i == -1 then -1 else i + 1
  }

  function DetectVersion(encodedHash: string): string {
    var idx := IndexOf(encodedHash, ':');
    if idx > 0 then encodedHash[..idx] else "v1"
  }

  /** `Hash`: a server without services would have nothing to call here. */
  function Hash(s: GrpcServer, plainText: string, salt: Salt): Result<string, Error>
    requires s.currentVersion in s.services
  {
    if plainText == "" then Err(EmptyPlainText)
    else Ok(s.services[s.currentVersion].hash(plainText, salt))
  }

  function Compare(s: GrpcServer, plainText: string, hash: string): Result<Compared, Error> {
    var version := DetectVersion(hash);
    if version !in s.services then Err(UnknownVersion)
    else
      match s.services[version].compare(plainText, hash)
      case Err(e) => Err(Failed(e))
      case Ok(m) => Ok(Compared(m, version != s.currentVersion))
  }

  ghost predicate WellBehaved(svc: HashService) {
    && svc.version != "" && ':' !in svc.version
    && (forall p, salt :: svc.version + ":" <= svc.hash(p, salt))
    && (forall p, salt :: svc.compare(p, svc.hash(p, salt)) == Ok(true))
  }

  ghost predicate DistinctVersions(services: seq<HashService>) {
    forall i, j :: 0 <= i < j < |services| ==> services[i].version != services[j].version
  }

  lemma {:induction false} RegisteredHas(services: seq<HashService>, i: nat)
    requires DistinctVersions(services) && i < |services|
    ensures services[i].version in Registered(services).services
    ensures Registered(services).services[services[i].version] == services[i]
  {
    var n := |services| - 1;
    if i < n {
      RegisteredHas(services[..n], i);
      assert services[i].version != services[n].version;
    }
  }

  lemma VersionOfPrefixed(version: string, rest: string)
    requires version != "" && ':' !in version
    ensures DetectVersion(version + ":" + rest) == version
  {
    var s := version + ":" + rest;
    var i := IndexOf(s, ':');
    assert s[|version|] == ':';
    assert s[..|version|] == version;
  }

  lemma PrefixSplits(version: string, h: string)
    requires version + ":" <= h
    ensures h == version + ":" + h[|version| + 1..]
  {
  }

  lemma VersionOfHash(svc: HashService, password: string, salt: Salt)
    requires WellBehaved(svc)
    ensures DetectVersion(svc.hash(password, salt)) == svc.version
  {
    var h := svc.hash(password, salt);
    PrefixSplits(svc.version, h);
    VersionOfPrefixed(svc.version, h[|svc.version| + 1..]);
  }

  lemma CurrentIsLast(services: seq<HashService>)
    requires services != []
    ensures Registered(services).currentVersion == services[|services| - 1].version
  {
  }

  /** The last service registered under a version serves it, whatever was registered under it before. */
  lemma {:induction false} LastOfVersionServes(services: seq<HashService>, i: nat)
    requires i < |services| && forall j :: i < j < |services| ==> services[j].version != services[i].version
    ensures var server := Registered(services);
            services[i].version in server.services && server.services[services[i].version] == services[i]
    ensures i == |services| - 1 ==> Registered(services).currentVersion == services[i].version
  {
    var n := |services| - 1;
    if i < n {
      LastOfVersionServes(services[..n], i);
    }
  }

  lemma {:induction false} RegisteredOnly(services: seq<HashService>, version: string)
    ensures version in Registered(services).services ==>
              exists i :: 0 <= i < |services| && services[i].version == version
  {
    if services != [] {
      var n := |services| - 1;
      RegisteredOnly(services[..n], version);
      if i :| 0 <= i < n && services[..n][i].version == version {
        assert services[i].version == version;
      }
    }
  }

  /** What the service of a version answers, with whether that version is the last one. */
  predicate AnswersAs(svc: HashService, last: bool, password: string, h: string, r: Result<Compared, Error>) {
    match svc.compare(password, h)
    case Err(e) => r == Err(Failed(e))
    case Ok(matches) => r.Ok? && r.value.matches == matches && r.value.needsUpgrade == !last
  }

  /** Comparing is asking the service of the detected version. */
  lemma ComparesWith(server: GrpcServer, svc: HashService, password: string, h: string)
    requires DetectVersion(h) == svc.version && svc.version in server.services && server.services[svc.version] == svc
    ensures AnswersAs(svc, svc.version == server.currentVersion, password, h, Compare(server, password, h))
  {
  }

  /** Any text that is marked with a version is compared by the service registered for it and by nothing else: a
      match is what that service says, whichever password is tried, and an upgrade is asked for exactly when the
      version is not the last one registered. A version that is not registered is refused. */
  lemma ComparedByItsVersion(services: seq<HashService>, version: string, rest: string, password: string)
    requires services != [] && DistinctVersions(services) && version != "" && ':' !in version
    ensures var r := Compare(Registered(services), password, version + ":" + rest);
            && (forall i :: 0 <= i < |services| && services[i].version == version ==>
                  AnswersAs(services[i], i == |services| - 1, password, version + ":" + rest, r))
            && ((forall i :: 0 <= i < |services| ==> services[i].version != version) ==> r == Err(UnknownVersion))
  {
    hide Registered, DetectVersion, AnswersAs;
    VersionOfPrefixed(version, rest);
    RegisteredOnly(services, version);
    CurrentIsLast(services);
    var h := version + ":" + rest;
    forall i | 0 <= i < |services| && services[i].version == version
      ensures AnswersAs(services[i], i == |services| - 1, password, h, Compare(Registered(services), password, h))
    {
      RegisteredHas(services, i);
      ComparesWith(Registered(services), services[i], password, h);
    }
  }

  /** So a hash of version 1 matches exactly the passwords that Argon2id maps to its digest under its salt, whatever
      other versions are registered, before or after. */
  lemma V1HashMatchesExactly(services: seq<HashService>, i: nat, s: V1.Service, argon2id: V1.Argon2id,
        password: string, salt: Salt, plainText: string)
    requires DistinctVersions(services) && i < |services| && services[i] == ServiceV1(s, argon2id)
    requires s.Valid() && |s.Digest(argon2id, password, salt)| == s.keyLen
    ensures Compare(Registered(services), plainText, s.Hash(argon2id, password, salt))
         == Ok(Compared(s.Digest(argon2id, plainText, salt) == s.Digest(argon2id, password, salt), i != |services| - 1))
  {
    hide Registered, Compare, DetectVersion, AnswersAs, V1.Phc, V1.Compare, V1.PREFIX;
    var rest := V1.Phc(s, salt, s.Digest(argon2id, password, salt));
    V1HashText(s, argon2id, password, salt);
    ComparedByItsVersion(services, "v1", rest, plainText);
    V1.CompareOfHash(s, argon2id, password, salt, plainText);
    V1Answers(services[i], s, argon2id, i == |services| - 1, plainText, s.Hash(argon2id, password, salt),
        Compare(Registered(services), plainText, s.Hash(argon2id, password, salt)));
  }

  lemma V1HashText(s: V1.Service, argon2id: V1.Argon2id, password: string, salt: Salt)
    ensures "v1" + ":" + V1.Phc(s, salt, s.Digest(argon2id, password, salt)) == s.Hash(argon2id, password, salt)
  {
    assert "v1" + ":" == "v1:";
  }

  lemma V1Answers(svc: HashService, s: V1.Service, argon2id: V1.Argon2id, last: bool, password: string, h: string,
        r: Result<Compared, Error>)
    requires svc == ServiceV1(s, argon2id) && AnswersAs(svc, last, password, h, r)
    ensures V1.Compare(argon2id, password, h).Ok? ==> r == Ok(Compared(V1.Compare(argon2id, password, h).value, !last))
  {
  }

  /** A hash made by the i-th registered version is routed back to it, matches its password, and asks
      for an upgrade exactly when that version is not the last one registered. */
  lemma RoutesToMaker(services: seq<HashService>, i: nat, password: string, salt: Salt)
    requires DistinctVersions(services) && i < |services|
    requires WellBehaved(services[i])
    ensures Compare(Registered(services), password, services[i].hash(password, salt))
         == Ok(Compared(true, i != |services| - 1))
  {
    hide Registered, Compare, DetectVersion;
    VersionOfHash(services[i], password, salt);
    RegisteredHas(services, i);
    CurrentIsLast(services);
    ComparesWith(Registered(services), services[i], password, services[i].hash(password, salt));
  }

  /** A new hash of a non-empty password matches it and needs no upgrade. */
  lemma FreshHashIsCurrent(services: seq<HashService>, password: string, salt: Salt)
    requires services != [] && DistinctVersions(services)
    requires WellBehaved(services[|services| - 1])
    requires password != ""
    ensures var server := Registered(services);
            server.currentVersion in server.services
            && Hash(server, password, salt).Ok?
            && Compare(server, password, Hash(server, password, salt).value) == Ok(Compared(true, false))
            && Hash(server, "", salt) == Err(EmptyPlainText)
  {
    hide Registered, Compare;
    RegisteredHas(services, |services| - 1);
    CurrentIsLast(services);
    RoutesToMaker(services, |services| - 1, password, salt);
  }

  /** The registered version 1. */
  ghost function ServiceV1(s: V1.Service, argon2id: V1.Argon2id): HashService {
    HashService("v1",
                (p: string, salt: Salt) => s.Hash(argon2id, p, salt),
                (p: string, h: string) => V1.Compare(argon2id, p, h))
  }

  /** Version 1 meets what the registry laws ask of a version. */
  lemma ServiceV1WellBehaved(s: V1.Service, argon2id: V1.Argon2id)
    requires s.Valid() && forall p, salt :: |s.Digest(argon2id, p, salt)| == s.keyLen
    ensures WellBehaved(ServiceV1(s, argon2id))
  {
    var svc := ServiceV1(s, argon2id);
    forall p, salt
      ensures svc.compare(p, svc.hash(p, salt)) == Ok(true)
    {
      assert |s.Digest(argon2id, p, salt)| == s.keyLen;
      V1.CompareOfHash(s, argon2id, p, salt, p);
    }
    forall p, salt
      ensures svc.version + ":" <= svc.hash(p, salt)
    {
      assert svc.hash(p, salt) == "v1:" + V1.Phc(s, salt, s.Digest(argon2id, p, salt));
    }
  }

  /** A hash stored without a version is treated in every way as the same hash marked `v1:`. */
  lemma UnprefixedIsV1(server: GrpcServer, s: V1.Service, argon2id: V1.Argon2id, plainText: string, hash: string)
    requires "v1" in server.services && server.services["v1"] == ServiceV1(s, argon2id)
    requires IndexOf(hash, ':') <= 0
    ensures Compare(server, plainText, hash) == Compare(server, plainText, "v1:" + hash)
  {
    assert "v1" + ":" + hash == "v1:" + hash;
    VersionOfPrefixed("v1", hash);
    assert !(V1.PREFIX <= hash);
    V1.PrefixIgnored(argon2id, plainText, hash);
  }
}
