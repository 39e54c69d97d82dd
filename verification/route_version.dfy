/**
 * Route version letters of NcMetaMgr: `genVer` spells an index in base 26
 * with the letters `vwxyzabcdefghijklmnopqrstu` and appends `1` (so index 0
 * is `v1`, 1 is `w1`, 26 is `wv1`); `getRouteVersionLetter` prefers a
 * database's configured API prefix over the generated letter.
 */
module RouteVersion {

  import opened Wrappers
  import opened JsStrings

  /** The digit-to-letter table of `genVer`. */
  const VersionAlphabet: string := "vwxyzabcdefghijklmnopqrstu"

  /** The base-26 digits of a number, one digit value per position, most significant first. */
  function Base26Digits(n: nat): (ds: seq<nat>)
    ensures |ds| >= 1
    ensures forall k :: 0 <= k < |ds| ==> ds[k] < 26
  {
    if n < 26 then [n] else Base26Digits(n / 26) + [n % 26]
  }

  /** The number a most-significant-first digit sequence denotes. */
  function DigitsValue(ds: seq<nat>): nat {
    if ds == [] then 0 else DigitsValue(ds[..|ds| - 1]) * 26 + ds[|ds| - 1]
  }

  /** Each base-26 digit replaced by the letter at that position of the alphabet. */
  function Letters(ds: seq<nat>): (s: string)
    requires forall k :: 0 <= k < |ds| ==> ds[k] < 26
    ensures |s| == |ds|
  {
    seq(|ds|, k requires 0 <= k < |ds| => VersionAlphabet[ds[k]])
  }

  /** `genVer`. */
  function GenVer(i: nat): (v: string)
    ensures |v| >= 2 && v[|v| - 1] == '1'
    ensures forall k :: 0 <= k < |v| - 1 ==> 'a' <= v[k] <= 'z'
  {
    AlphabetIsRotation();
    Letters(Base26Digits(i)) + "1"
  }

  /** The table is the alphabet rotated so that digit 0 is `v`. */
  lemma AlphabetIsRotation()
    ensures forall d :: 0 <= d < 26 ==> VersionAlphabet[d] == (('a' as int) + (d + 21) % 26) as char
  {
  }

  /** The digit a version letter stands for. */
  function LetterDigit(c: char): nat {
    ((c as int) - ('a' as int) + 5) % 26
  }

  /** Reads a generated version string back to its index; `None` when it is not of that form. */
  function VersionIndex(v: string): (r: Option<nat>) {
    if |v| >= 2 && v[|v| - 1] == '1' && forall k :: 0 <= k < |v| - 1 ==> 'a' <= v[k] <= 'z'
    then Some(DigitsValue(seq(|v| - 1, k requires 0 <= k < |v| - 1 => LetterDigit(v[k]))))
    else None
  }

  lemma {:induction false} DigitsRoundTrip(n: nat)
    ensures DigitsValue(Base26Digits(n)) == n
  {
    if n >= 26 {
      var ds := Base26Digits(n);
      assert ds[..|ds| - 1] == Base26Digits(n / 26);
      DigitsRoundTrip(n / 26);
    }
  }

  lemma LettersRoundTrip(ds: seq<nat>)
    requires forall k :: 0 <= k < |ds| ==> ds[k] < 26
    ensures seq(|ds|, k requires 0 <= k < |ds| => LetterDigit(Letters(ds)[k])) == ds
  {
    AlphabetIsRotation();
  }

  /** Decoding a generated version string recovers its index. */
  lemma GenVerRoundTrip(i: nat)
    ensures VersionIndex(GenVer(i)) == Some(i)
  {
    var ds := Base26Digits(i);
    var v := GenVer(i);
    assert v[..|v| - 1] == Letters(ds);
    LettersRoundTrip(ds);
    assert seq(|v| - 1, k requires 0 <= k < |v| - 1 => LetterDigit(v[k])) == ds;
    DigitsRoundTrip(i);
  }

  /** Distinct indices get distinct version strings. */
  lemma GenVerInjective(i: nat, j: nat)
    requires i != j
    ensures GenVer(i) != GenVer(j)
  {
    GenVerRoundTrip(i);
    GenVerRoundTrip(j);
  }

  lemma GenVerExamples()
    ensures GenVer(0) == "v1" && GenVer(1) == "w1" && GenVer(26) == "wv1"
  {
    assert Base26Digits(26) == [1, 0];
    assert Letters([1, 0]) == "wv";
  }

  /** One entry of the environment's database list. */
  datatype DbConnection = DbConnection(dbAlias: string, apiPrefix: Option<string>)

  /** `k` is the position of the first connection with alias `dbAlias`. */
  predicate FirstMatch(dbs: seq<DbConnection>, dbAlias: string, k: int) {
    && 0 <= k < |dbs|
    && dbs[k].dbAlias == dbAlias
    && forall i :: 0 <= i < k ==> dbs[i].dbAlias != dbAlias
  }

  /** The letter for the first match at or after `start`. */
  function RouteVersionFrom(dbs: seq<DbConnection>, dbAlias: string, start: nat): (r: Option<string>)
    requires start <= |dbs|
    requires forall i :: 0 <= i < start ==> dbs[i].dbAlias != dbAlias
    ensures r.None? <==> forall i :: start <= i < |dbs| ==> dbs[i].dbAlias != dbAlias
    ensures r.Some? ==>
              exists k :: (FirstMatch(dbs, dbAlias, k) &&
                           r.value == (if Truthy(dbs[k].apiPrefix) then dbs[k].apiPrefix.value else GenVer(k)))
    decreases |dbs| - start
  {
    if start == |dbs| then None
    else if dbs[start].dbAlias == dbAlias then
      assert FirstMatch(dbs, dbAlias, start);
      Some(if Truthy(dbs[start].apiPrefix) then dbs[start].apiPrefix.value else GenVer(start))
    else RouteVersionFrom(dbs, dbAlias, start + 1)
  }

  /**
   * `getRouteVersionLetter`: for the first database with the requested alias,
   * its API prefix if one is configured, else `genVer` of its position;
   * nothing when no database has that alias.
   */
  function RouteVersionLetter(dbs: seq<DbConnection>, dbAlias: string): (r: Option<string>)
    ensures r.None? <==> forall i :: 0 <= i < |dbs| ==> dbs[i].dbAlias != dbAlias
    ensures r.Some? ==>
              exists k :: (FirstMatch(dbs, dbAlias, k) &&
                           r.value == (if Truthy(dbs[k].apiPrefix) then dbs[k].apiPrefix.value else GenVer(k)))
  {
    RouteVersionFrom(dbs, dbAlias, 0)
  }

  /** Without configured prefixes, distinct aliases in a list get distinct letters. */
  lemma UnprefixedLettersDistinct(dbs: seq<DbConnection>, ia: nat, ib: nat)
    requires ia < |dbs| && ib < |dbs| && dbs[ia].dbAlias != dbs[ib].dbAlias
    requires forall i :: 0 <= i < |dbs| ==> !Truthy(dbs[i].apiPrefix)
    ensures RouteVersionLetter(dbs, dbs[ia].dbAlias).Some? && RouteVersionLetter(dbs, dbs[ib].dbAlias).Some?
    ensures RouteVersionLetter(dbs, dbs[ia].dbAlias) != RouteVersionLetter(dbs, dbs[ib].dbAlias)
  {
    var a, b := dbs[ia].dbAlias, dbs[ib].dbAlias;
    var ra, rb := RouteVersionLetter(dbs, a), RouteVersionLetter(dbs, b);
    assert ra.Some? by { assert dbs[ia].dbAlias == a; }
    assert rb.Some? by { assert dbs[ib].dbAlias == b; }
    var ka :| FirstMatch(dbs, a, ka) && ra.value == GenVer(ka);
    var kb :| FirstMatch(dbs, b, kb) && rb.value == GenVer(kb);
    GenVerInjective(ka, kb);
  }
}
