/**
 * The two rewriters that turn prefixed class ids into IRIs (`BCIOGraph._parse_bcio_uri`
 * and `BCIOGraph._parse_bcio_uri_from_id`).
 */
module BcioUris {
  import opened Strings
  import opened Rdf

  /**
   * `_parse_bcio_uri`: an id starting with lower-case `bcio:` becomes a BCIO IRI after
   * every `bcio:` in it is removed; anything else is taken as an IRI unchanged.
   */
  function ParseBcioUri(prefixed: string): (r: string)
    ensures StartsWith(prefixed, "bcio:") ==> StartsWith(r, BCIO_NS)
    ensures !StartsWith(prefixed, "bcio:") ==> r == prefixed
  {
    if StartsWith(prefixed, "bcio:") then BCIO_NS + ReplaceAll(prefixed, "bcio:", "") else prefixed
  }

  /** A pattern can only occur in a string that holds its first character. */
  lemma ContainsFirstChar(s: string, p: string)
    requires |p| > 0 && Contains(s, p)
    ensures p[0] in s
  {
    var i := ContainsOffset(s, p);
    assert s[i] == s[i..i + |p|][0];
  }

  /** `bcio:` followed by a local name that has no further `bcio:` expands to that name in the BCIO namespace. */
  lemma ParseBcioUriExpands(local: string)
    requires !Contains(local, "bcio:")
    ensures ParseBcioUri("bcio:" + local) == BCIO_NS + local
  {
    var s := "bcio:" + local;
    assert s[..5] == "bcio:";
    assert s[5..] == local;
  }

  /**
   * `_parse_bcio_uri_from_id`: "" is `BCIO_unknown`; `BCIO:` ids lose the prefix and every
   * underscore and are zero-padded to seven characters when all digits; `bcio:` ids go
   * through `ParseBcioUri`; any other id has each `:` replaced by `_`. Every result is in
   * the BCIO namespace.
   */
  function ParseBcioUriFromId(bcioId: string): (r: string)
    ensures StartsWith(r, BCIO_NS)
  {
    if bcioId == "" then BCIO_UNKNOWN
    else if StartsWith(bcioId, "BCIO:") then
      var local := ReplaceAll(ReplaceAll(bcioId, "BCIO:", ""), "_", "");
      BCIO_NS + (if IsDigits(local) then ZFill(local, 7) else local)
    else if StartsWith(bcioId, "bcio:") then ParseBcioUri(bcioId)
    else ForeignIri(bcioId)
  }

  /** Any other id: the id in the BCIO namespace with each `:` replaced by `_`. */
  function ForeignIri(bcioId: string): string {
    BCIO_NS + ReplaceAll(bcioId, ":", "_")
  }

  /** A numeric `BCIO:` id keeps its number, padded with zeros to at least seven digits. */
  lemma ParseNumericId(digits: string)
    requires IsDigits(digits)
    ensures ParseBcioUriFromId("BCIO:" + digits) == BCIO_NS + ZFill(digits, 7)
    ensures IsDigits(ZFill(digits, 7)) && |ZFill(digits, 7)| >= 7
    ensures DigitsValue(ZFill(digits, 7)) == DigitsValue(digits)
  {
    var s := "BCIO:" + digits;
    assert s[..5] == "BCIO:";
    assert s[5..] == digits;
    if Contains(digits, "BCIO:") {
      ContainsFirstChar(digits, "BCIO:");
    }
    if Contains(digits, "_") {
      ContainsFirstChar(digits, "_");
    }
    assert StartsWith(s, "BCIO:");
    assert ReplaceAll(s, "BCIO:", "") == "" + ReplaceAll(digits, "BCIO:", "") == digits;
    assert ReplaceAll(digits, "_", "") == digits;
    ZFillDigits(digits, 7);
  }

  /** The IRI made from a `BCIO:` id has no underscore after the namespace, padded or not. */
  lemma ParseBcioIdDropsUnderscores(bcioId: string)
    requires StartsWith(bcioId, "BCIO:")
    ensures var r := ParseBcioUriFromId(bcioId); '_' !in r[|BCIO_NS|..]
  {
    var local := ReplaceAll(ReplaceAll(bcioId, "BCIO:", ""), "_", "");
    ReplaceCharRemoves(ReplaceAll(bcioId, "BCIO:", ""), '_');
    var r := ParseBcioUriFromId(bcioId);
    if IsDigits(local) {
      var z := ZFill(local, 7);
      assert r[|BCIO_NS|..] == z;
      if |local| < 7 {
        assert z == Zeros(7 - |local|) + local;
        assert forall i :: 0 <= i < |z| ==> z[i] != '_';
      }
    } else {
      assert r[|BCIO_NS|..] == local;
    }
  }

  /**
   * Any other non-empty id keeps its length and characters, except that every `:` becomes
   * `_`, so the result has no `:` after the namespace.
   */
  lemma ParseForeignId(bcioId: string)
    requires bcioId != "" && !StartsWith(bcioId, "BCIO:") && !StartsWith(bcioId, "bcio:")
    ensures var r := ParseBcioUriFromId(bcioId);
      |r| == |BCIO_NS| + |bcioId| &&
      forall i :: 0 <= i < |bcioId| ==>
        r[|BCIO_NS| + i] == (if bcioId[i] == ':' then '_' else bcioId[i])
  {
    assert ParseBcioUriFromId(bcioId) == ForeignIri(bcioId);
    ForeignIriPointwise(bcioId);
  }

  lemma ForeignIriPointwise(bcioId: string)
    ensures var r := ForeignIri(bcioId);
      |r| == |BCIO_NS| + |bcioId| &&
      forall i :: 0 <= i < |bcioId| ==> r[|BCIO_NS| + i] == (if bcioId[i] == ':' then '_' else bcioId[i])
  {
    ReplaceCharPointwise(bcioId, ':', '_');
  }
}
