/** Identifiers of observations: a digest of a length-prefixed list of parts. */
module SourceId {
  import opened Wrappers
  import opened Clock

  /** The digest, and how an instant is written into a part. Neither is computed here. */
  datatype Naming = Naming(digest: string -> string, stamp: Time -> string)

  ghost predicate Injective(n: Naming) {
    && (forall s, t {:trigger n.digest(s), n.digest(t)} :: n.digest(s) == n.digest(t) ==> s == t)
    && (forall s, t {:trigger n.stamp(s), n.stamp(t)} :: n.stamp(s) == n.stamp(t) ==> s == t)
  }

  function Digit(n: nat): char
    requires n < 10
  {
    '0' + n as char
  }

  function Decimal(n: nat): string {
    if n < 10 then [Digit(n)] else Decimal(n / 10) + [Digit(n % 10)]
  }

  /** What stableSourceID feeds to the digest: each part behind its length and a colon. */
  function Encode(parts: seq<string>): string {
    if parts == [] then "" else Decimal(|parts[0]|) + ":" + parts[0] + Encode(parts[1..])
  }

  function StableId(n: Naming, parts: seq<string>): string { n.digest(Encode(parts)) }

  // ---------- reading the parts back ----------

  predicate IsDigit(c: char) { '0' <= c <= '9' }

  function Number(s: string): nat {
    if s == "" then 0
    else
      var c := s[|s| - 1];
      10 * Number(s[..|s| - 1]) + if IsDigit(c) then c as int - '0' as int else 0
  }

  function FirstColon(s: string): (c: nat)
    ensures c <= |s|
  {
    if s == "" || s[0] == ':' then 0 else 1 + FirstColon(s[1..])
  }

  function Decode(s: string): Option<seq<string>>
    decreases |s|
  {
    if s == "" then Some([])
    else
      var c := FirstColon(s);
      var n := Number(s[..c]);
      if c == |s| || |s| < c + 1 + n then None
      else
        match Decode(s[c + 1 + n..])
        case None => None
        case Some(rest) => Some([s[c + 1..c + 1 + n]] + rest)
  }

  lemma {:induction false} DecimalReads(n: nat)
    ensures Number(Decimal(n)) == n && ':' !in Decimal(n)
  {
    if n < 10 {
      assert [Digit(n)][..0] == "";
    } else {
      DecimalReads(n / 10);
      assert (Decimal(n / 10) + [Digit(n % 10)])[..|Decimal(n / 10)|] == Decimal(n / 10);
    }
  }

  lemma {:induction false} ColonAfter(a: string, b: string)
    requires ':' !in a
    ensures FirstColon(a + ":" + b) == |a|
  {
    if a == "" {
      assert a + ":" + b == ":" + b;
    } else {
      assert (a + ":" + b)[1..] == a[1..] + ":" + b;
      ColonAfter(a[1..], b);
    }
  }

  /** The bytes fed to the digest are uniquely decodable, whatever the parts contain. */
  lemma {:induction false} DecodeEncodes(parts: seq<string>)
    ensures Decode(Encode(parts)) == Some(parts)
  {
    if parts != [] {
      var head, rest := Decimal(|parts[0]|), Encode(parts[1..]);
      var s := Encode(parts);
      DecimalReads(|parts[0]|);
      ColonAfter(head, parts[0] + rest);
      assert s == head + ":" + (parts[0] + rest);
      assert FirstColon(s) == |head| < |s|;
      assert s[..|head|] == head;
      assert s[|head| + 1..|head| + 1 + |parts[0]|] == parts[0];
      assert s[|head| + 1 + |parts[0]|..] == rest;
      DecodeEncodes(parts[1..]);
      assert parts == [parts[0]] + parts[1..];
    }
  }

  /** With a digest that never collides, identifiers are equal only for equal parts. */
  lemma StableIdInjective(n: Naming, a: seq<string>, b: seq<string>)
    requires Injective(n) && StableId(n, a) == StableId(n, b)
    ensures a == b
  {
    DecodeEncodes(a);
    DecodeEncodes(b);
  }
}
