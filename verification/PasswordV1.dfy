/** Version 1 of the password hash format: an Argon2id digest (RFC 9106) printed with its
    parameters and salt, and the parser that reads it back. Argon2id itself is a parameter. */
module PasswordV1 {
  import opened Wrappers
  import opened Text
  import Base64

  type Byte = Base64.Byte

  const UINT32: nat := 0x1_0000_0000
  const UINT8: nat := 0x100
  const ARGON2_VERSION: nat := 19

  /** Password, salt, time, memory, threads and key length to digest. */
  type Argon2id = (string, seq<Byte>, nat, nat, nat, nat) -> seq<Byte>

  datatype Service = Service(time: nat, memory: nat, threads: nat, keyLen: nat) {
    predicate Valid() {
      1 <= time < UINT32 && memory < UINT32 && 1 <= threads < UINT8 && 1 <= keyLen < UINT32
    }

    function Digest(argon2id: Argon2id, password: string, salt: seq<Byte>): seq<Byte> {
      argon2id(password, salt, time, memory, threads, keyLen)
    }

    /** `Hash`, for the salt it drew. */
    function Hash(argon2id: Argon2id, password: string, salt: seq<Byte>): string {
      PREFIX + Phc(this, salt, Digest(argon2id, password, salt))
    }
  }

  const PREFIX := "v1:"
  const DEFAULT := Service(1, 64 * 1024, 4, 32)

  function ParamField(s: Service): string {
    "m=" + Print(s.memory) + ",t=" + Print(s.time) + ",p=" + Print(s.threads)
  }

  function Fields(s: Service, salt: seq<Byte>, digest: seq<Byte>): seq<string> {
    ["", "argon2id", "v=" + Print(ARGON2_VERSION), ParamField(s), Base64.Encode(salt), Base64.Encode(digest)]
  }

  function Phc(s: Service, salt: seq<Byte>, digest: seq<Byte>): string {
    "$argon2id$v=" + Print(ARGON2_VERSION) + "$" + ParamField(s) + "$" + Base64.Encode(salt) + "$"
        + Base64.Encode(digest)
  }

  datatype Error =
    | WrongShape
    | WrongAlgorithm
    | BadVersion
    | BadParameters
    | BadBase64
    | Argon2Panic  // Argon2id panics on zero rounds, zero threads or an empty digest

  datatype Parsed = Parsed(memory: nat, time: nat, threads: nat, salt: seq<Byte>, digest: seq<Byte>)

  function TrimPrefix(s: string): string {
    if PREFIX <= s then s[|PREFIX|..] else s
  }

  /** The field `v=%d`; text after the number is ignored, as `Sscanf` does. */
  predicate VersionFieldOk(s: string) {
    match Literal(s, "v=")
    case None => false
    case Some(rest) => ScanInt(rest).Some?
  }

  /** The field `m=%d,t=%d,p=%d`. */
  function ScanParams(s: string): Option<(nat, nat, nat)> {
    match Literal(s, "m=")
    case None => None
    case Some(s1) =>
      match ScanUint(s1, UINT32)
      case None => None
      case Some((memory, s2)) =>
        match Literal(s2, ",t=")
        case None => None
        case Some(s3) =>
          match ScanUint(s3, UINT32)
          case None => None
          case Some((time, s4)) =>
            match Literal(s4, ",p=")
            case None => None
            case Some(s5) =>
              match ScanUint(s5, UINT8)
              case None => None
              case Some((threads, _)) => Some((memory, time, threads))
  }

  function Parse(encoded: string): Result<Parsed, Error> {
    var parts := Split(TrimPrefix(encoded), '$');
    if |parts| != 6 then Err(WrongShape)
    else if parts[1] != "argon2id" then Err(WrongAlgorithm)
    else if !VersionFieldOk(parts[2]) then Err(BadVersion)
    else
      match (ScanParams(parts[3]), Base64.Decode(parts[4]), Base64.Decode(parts[5]))
      case (None, _, _) => Err(BadParameters)
      case (Some((memory, time, threads)), Some(salt), Some(digest)) =>
        Ok(Parsed(memory, time, threads, salt, digest))
      case _ => Err(BadBase64)
  }

  /** `Compare`: digests are compared whole. */
  function Compare(argon2id: Argon2id, plainText: string, encoded: string): Result<bool, Error> {
    match Parse(encoded)
    case Err(e) => Err(e)
    case Ok(h) => CompareDigest(argon2id, plainText, h)
  }

  function CompareDigest(argon2id: Argon2id, plainText: string, h: Parsed): Result<bool, Error> {
    if h.time == 0 || h.threads == 0 || |h.digest| % UINT32 == 0 then Err(Argon2Panic)
    else Ok(argon2id(plainText, h.salt, h.time, h.memory, h.threads, |h.digest| % UINT32) == h.digest)
  }

  lemma PrefixIgnored(argon2id: Argon2id, plainText: string, encoded: string)
    requires !(PREFIX <= encoded)
    ensures Compare(argon2id, plainText, PREFIX + encoded) == Compare(argon2id, plainText, encoded)
  {
    assert TrimPrefix(PREFIX + encoded) == encoded == TrimPrefix(encoded);
  }

  lemma PhcIsJoin(s: Service, salt: seq<Byte>, digest: seq<Byte>)
    ensures Phc(s, salt, digest) == Join(Fields(s, salt, digest), '$')
  {
    var f := Fields(s, salt, digest);
    JoinSix(f[0], f[1], f[2], f[3], f[4], f[5]);
    assert "$argon2id$v=" == "" + "$" + "argon2id" + "$" + "v=";
    var head := "$argon2id$v=";
    assert "" + "$" + "argon2id" + "$" + ("v=" + Print(ARGON2_VERSION)) == head + Print(ARGON2_VERSION);
  }

  lemma JoinSix(a: string, b: string, c: string, d: string, e: string, f: string)
    ensures Join([a, b, c, d, e, f], '$') == a + "$" + b + "$" + c + "$" + d + "$" + e + "$" + f
  {
    hide Join;
    var last := d + "$" + e + "$" + f;
    JoinThree(d, e, f);
    JoinCons(c, [d, e, f]);
    JoinCons(b, [c, d, e, f]);
    JoinCons(a, [b, c, d, e, f]);
    assert [a] + [b, c, d, e, f] == [a, b, c, d, e, f];
    assert [b] + [c, d, e, f] == [b, c, d, e, f];
    assert [c] + [d, e, f] == [c, d, e, f];
    Glue(a, b, c + "$" + last);
    Glue(a + "$" + b, c, last);
    Glue(a + "$" + b + "$" + c, d, e + "$" + f);
    Glue(a + "$" + b + "$" + c + "$" + d, e, f);
    Glue(d, e, f);
  }

  lemma Glue(x: string, y: string, z: string)
    ensures x + "$" + (y + "$" + z) == x + "$" + y + "$" + z
  {
  }

  lemma JoinThree(d: string, e: string, f: string)
    ensures Join([d, e, f], '$') == d + "$" + e + "$" + f
  {
    JoinCons(d, [e, f]);
    JoinCons(e, [f]);
    assert [d] + [e, f] == [d, e, f];
    assert [e] + [f] == [e, f];
  }

  lemma JoinCons(first: string, rest: seq<string>)
    requires rest != []
    ensures Join([first] + rest, '$') == first + "$" + Join(rest, '$')
  {
    assert ([first] + rest)[1..] == rest;
  }

  lemma NoDollar(s: Service, salt: seq<Byte>, digest: seq<Byte>)
    ensures forall i :: 0 <= i < 6 ==> '$' !in Fields(s, salt, digest)[i]
  {
    var f := Fields(s, salt, digest);
    assert '$' !in "argon2id" && '$' !in "v=" && '$' !in "m=" && '$' !in ",t=" && '$' !in ",p=";
    assert !IsDigit('$') && !Base64.InAlphabet('$');
    assert '$' !in f[2];
    assert '$' !in f[3];
    Base64.EncodeInAlphabet(salt);
    Base64.EncodeInAlphabet(digest);
  }

  lemma ScanOfParamField(s: Service)
    requires s.Valid()
    ensures ScanParams(ParamField(s)) == Some((s.memory, s.time, s.threads))
  {
    var s5 := Print(s.threads);
    var s3 := Print(s.time) + (",p=" + s5);
    var s1 := Print(s.memory) + (",t=" + s3);
    assert ParamField(s) == "m=" + s1;
    ScanOfPrint(s.memory, ",t=" + s3, UINT32);
    ScanOfPrint(s.time, ",p=" + s5, UINT32);
    ScanOfPrint(s.threads, "", UINT8);
    assert s5 + "" == s5;
    LiteralOfConcat("m=", s1);
    LiteralOfConcat(",t=", s3);
    LiteralOfConcat(",p=", s5);
  }

  lemma LiteralOfConcat(lit: string, rest: string)
    ensures Literal(lit + rest, lit) == Some(rest)
  {
  }

  lemma VersionFieldScans()
    ensures VersionFieldOk("v=" + Print(ARGON2_VERSION))
  {
    LiteralOfConcat("v=", Print(ARGON2_VERSION));
    ScanOfPrint(ARGON2_VERSION, "", 0x8000_0000_0000_0000);
    assert Print(ARGON2_VERSION) + "" == Print(ARGON2_VERSION);
  }

  /** The parser reads back exactly the parameters, salt and digest that were printed. */
  lemma ParseOfHash(s: Service, argon2id: Argon2id, password: string, salt: seq<Byte>)
    requires s.Valid()
    ensures Parse(s.Hash(argon2id, password, salt))
         == Ok(Parsed(s.memory, s.time, s.threads, salt, s.Digest(argon2id, password, salt)))
  {
    var digest := s.Digest(argon2id, password, salt);
    var encoded := s.Hash(argon2id, password, salt);
    assert TrimPrefix(encoded) == Phc(s, salt, digest);
    PhcIsJoin(s, salt, digest);
    NoDollar(s, salt, digest);
    SplitJoin(Fields(s, salt, digest), '$');
    VersionFieldScans();
    ScanOfParamField(s);
    Base64.RoundTrip(salt);
    Base64.RoundTrip(digest);
  }

  /** Six fields between dollar signs, of which the first is not looked at. */
  predicate HasFields(parts: seq<string>, text: string, h: Parsed) {
    && |parts| == 6 && (forall i :: 0 <= i < 6 ==> '$' !in parts[i])
    && text == parts[0] + "$" + parts[1] + "$" + parts[2] + "$" + parts[3] + "$" + parts[4] + "$" + parts[5]
    && parts[1] == "argon2id" && VersionFieldOk(parts[2])
    && ScanParams(parts[3]) == Some((h.memory, h.time, h.threads))
    && Base64.Decode(parts[4]) == Some(h.salt) && Base64.Decode(parts[5]) == Some(h.digest)
  }

  /** The text after the version mark, or all of it if it has none. */
  predicate Unmarked(encoded: string, text: string) {
    encoded == "v1:" + text || (encoded == text && !("v1:" <= encoded))
  }

  lemma SixParts(parts: seq<string>)
    requires |parts| == 6
    ensures Join(parts, '$')
         == parts[0] + "$" + parts[1] + "$" + parts[2] + "$" + parts[3] + "$" + parts[4] + "$" + parts[5]
  {
    hide Join;
    assert parts == [parts[0], parts[1], parts[2], parts[3], parts[4], parts[5]];
    JoinSix(parts[0], parts[1], parts[2], parts[3], parts[4], parts[5]);
  }

  /** Exactly which texts are read, and as what. */
  lemma ParsesExactlyWhen(encoded: string, h: Parsed)
    ensures Parse(encoded) == Ok(h) <==> exists parts, text :: Unmarked(encoded, text) && HasFields(parts, text, h)
  {
    hide Join, VersionFieldOk, ScanParams;
    if Parse(encoded) == Ok(h) {
      var text := TrimPrefix(encoded);
      var parts := Split(text, '$');
      JoinSplit(text, '$');
      SixParts(parts);
      assert Unmarked(encoded, text) && HasFields(parts, text, h);
    }
    if parts, text :| Unmarked(encoded, text) && HasFields(parts, text, h) {
      assert TrimPrefix(encoded) == text;
      SixParts(parts);
      SplitJoin(parts, '$');
    }
  }

  /** The text is read as this, with parameters that Argon2id takes, and the password has the digest in it. */
  predicate StoresDigestOf(argon2id: Argon2id, plainText: string, encoded: string, h: Parsed) {
    && Parse(encoded) == Ok(h) && h.time > 0 && h.threads > 0 && |h.digest| % 4294967296 > 0
    && argon2id(plainText, h.salt, h.time, h.memory, h.threads, |h.digest| % 4294967296) == h.digest
  }

  /** Exactly which texts match a password, whoever made them; a text that is not read, or has no rounds, no threads
      or no digest, is an error, and every other text is a mismatch. */
  lemma MatchesExactlyWhen(argon2id: Argon2id, plainText: string, encoded: string)
    ensures Compare(argon2id, plainText, encoded) == Ok(true) <==>
              exists h :: StoresDigestOf(argon2id, plainText, encoded, h)
    ensures Compare(argon2id, plainText, encoded).Err? <==>
              Parse(encoded).Err? || Parse(encoded).value.time == 0 || Parse(encoded).value.threads == 0
                  || |Parse(encoded).value.digest| % 4294967296 == 0
  {
    hide Parse;
    if Compare(argon2id, plainText, encoded) == Ok(true) {
      assert StoresDigestOf(argon2id, plainText, encoded, Parse(encoded).value);
    }
  }

  /** A hash is the password's digest in the PHC string format, marked with its version; and any text in that format,
      marked or not, is read as the parameters, salt and digest in it. */
  lemma HashIsPhcString(s: Service, argon2id: Argon2id, password: string, salt: seq<Byte>)
    requires s.Valid()
    ensures var digest := argon2id(password, salt, s.time, s.memory, s.threads, s.keyLen);
            var phc := "$argon2id$v=19$m=" + Print(s.memory) + ",t=" + Print(s.time) + ",p=" + Print(s.threads) + "$"
                + Base64.Encode(salt) + "$" + Base64.Encode(digest);
            && s.Hash(argon2id, password, salt) == "v1:" + phc
            && Parse(phc) == Ok(Parsed(s.memory, s.time, s.threads, salt, digest))
  {
    var digest := s.Digest(argon2id, password, salt);
    assert Print(ARGON2_VERSION) == "19" by {
      assert Print(1) == "1";
    }
    PhcText(s, salt, digest);
    ParseOfHash(s, argon2id, password, salt);
    assert TrimPrefix(Phc(s, salt, digest)) == Phc(s, salt, digest) == TrimPrefix("v1:" + Phc(s, salt, digest));
  }

  lemma PhcText(s: Service, salt: seq<Byte>, digest: seq<Byte>)
    requires Print(ARGON2_VERSION) == "19"
    ensures Phc(s, salt, digest)
         == "$argon2id$v=19$m=" + Print(s.memory) + ",t=" + Print(s.time) + ",p=" + Print(s.threads) + "$"
            + Base64.Encode(salt) + "$" + Base64.Encode(digest)
  {
    assert "$argon2id$v=" + "19" + "$" + "m=" == "$argon2id$v=19$m=";
  }

  /** The hashes that the program makes: 64 MiB, one pass, four threads, and a digest of 32 bytes. */
  lemma DefaultHash(argon2id: Argon2id, password: string, salt: seq<Byte>)
    ensures DEFAULT.Valid()
    ensures DEFAULT.Hash(argon2id, password, salt)
         == "v1:$argon2id$v=19$m=65536,t=1,p=4$" + Base64.Encode(salt) + "$"
            + Base64.Encode(argon2id(password, salt, 1, 65536, 4, 32))
  {
    hide Print, Base64.Encode, Service.Hash;
    HashIsPhcString(DEFAULT, argon2id, password, salt);
    DefaultNumbers();
    DefaultPrefix(Base64.Encode(salt), Base64.Encode(argon2id(password, salt, 1, 65536, 4, 32)));
  }

  lemma DefaultNumbers()
    ensures Print(65536) == "65536" && Print(1) == "1" && Print(4) == "4"
  {
    assert Print(6) == "6";
    assert Print(65) == "65";
    assert Print(655) == "655";
    assert Print(6553) == "6553";
  }

  lemma DefaultPrefix(a: string, b: string)
    ensures "v1:" + ("$argon2id$v=19$m=" + "65536" + ",t=" + "1" + ",p=" + "4" + "$" + a + "$" + b)
         == "v1:$argon2id$v=19$m=65536,t=1,p=4$" + a + "$" + b
  {
    assert "v1:" + ("$argon2id$v=19$m=" + "65536" + ",t=" + "1" + ",p=" + "4" + "$")
        == "v1:$argon2id$v=19$m=65536,t=1,p=4$";
    Associates("v1:", "$argon2id$v=19$m=" + "65536" + ",t=" + "1" + ",p=" + "4" + "$", a, b);
  }

  lemma Associates(x: string, y: string, a: string, b: string)
    ensures x + (y + a + "$" + b) == x + y + a + "$" + b
  {
  }

  /** Comparing any text with a stored hash says exactly whether Argon2id maps both passwords to the
      same digest under the stored salt and parameters, given only that the digest has the length
      that was asked for. */
  lemma CompareOfHash(s: Service, argon2id: Argon2id, password: string, salt: seq<Byte>, plainText: string)
    requires s.Valid() && |s.Digest(argon2id, password, salt)| == s.keyLen
    ensures Compare(argon2id, plainText, s.Hash(argon2id, password, salt))
         == Ok(s.Digest(argon2id, plainText, salt) == s.Digest(argon2id, password, salt))
  {
    var digest := s.Digest(argon2id, password, salt);
    ParseOfHash(s, argon2id, password, salt);
    CompareParsed(argon2id, plainText, s.Hash(argon2id, password, salt),
        Parsed(s.memory, s.time, s.threads, salt, digest));
    CompareStored(s, argon2id, plainText, salt, digest);
  }

  lemma CompareParsed(argon2id: Argon2id, plainText: string, encoded: string, h: Parsed)
    requires Parse(encoded) == Ok(h)
    ensures Compare(argon2id, plainText, encoded) == CompareDigest(argon2id, plainText, h)
  {
  }

  lemma CompareStored(s: Service, argon2id: Argon2id, plainText: string, salt: seq<Byte>, digest: seq<Byte>)
    requires s.Valid() && |digest| == s.keyLen
    ensures CompareDigest(argon2id, plainText, Parsed(s.memory, s.time, s.threads, salt, digest))
         == Ok(s.Digest(argon2id, plainText, salt) == digest)
  {
    assert |digest| % UINT32 == s.keyLen;
  }
}
