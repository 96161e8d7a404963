/** The composite import identifier `<ip>:<id>` shared by the switch and input
    resources: split on every `:`, exactly two parts, the second through Atoi. */
module ImportId {
  import opened GoStrings

  datatype ParseResult =
    | Indexed(ip: string, id: int)
    | BadFormat
    | BadIndex(part: string, error: AtoiResult)

  /** The attributes an indexed import writes into the new state. */
  datatype ImportedKey = ImportedKey(ip: string, id: int)

  const FORMAT_ERROR := "Invalid import ID format"
  const FORMAT_DETAIL := "Expected format: ip:id (e.g., 192.168.1.1:123)"

  /** The detail of the diagnostic for an index Atoi rejects. */
  function IndexDetail(part: string, e: AtoiResult): (detail: string)
    requires !e.Parsed?
    ensures |detail| > 22 + |part|
    ensures detail[..22] == "Could not convert ID '" && detail[22..22 + |part|] == part
    ensures detail[22 + |part|..] == "' to integer: " + AtoiErrorText(part, e)
  {
    var prefix := "Could not convert ID '";
    var suffix := "' to integer: " + AtoiErrorText(part, e);
    var detail := prefix + part + suffix;
    assert detail[..22] == prefix && detail[22..22 + |part|] == part && detail[22 + |part|..] == suffix;
    detail
  }

  /** The check both ImportState operations run before touching the state. */
  function Parse(importId: string): (r: ParseResult)
    ensures r.BadIndex? ==> !r.error.Parsed?
  {
    var parts := Split(importId, ':');
    if |parts| != 2 then BadFormat
    else
      match Atoi(parts[1])
      case Parsed(n) => Indexed(parts[0], n)
      case e => BadIndex(parts[1], e)
  }

  /** The format error happens exactly when the identifier does not hold exactly one `:`. */
  lemma ParseFormat(importId: string)
    ensures Parse(importId).BadFormat? <==> Count(importId, ':') != 1
  {
    SplitShape(importId, ':');
  }

  /** A successful parse cuts the identifier at its only `:`; the address is
      what stands before it and the index is Atoi of what stands after it. */
  lemma ParseSound(importId: string)
    ensures Parse(importId).Indexed? ==>
      var k := |Parse(importId).ip|;
      k < |importId| && importId[k] == ':' && importId[..k] == Parse(importId).ip &&
      ':' !in importId[..k] && ':' !in importId[k + 1..] &&
      Atoi(importId[k + 1..]) == Parsed(Parse(importId).id)
  {
    var parts := Split(importId, ':');
    if |parts| == 2 {
      SplitShape(importId, ':');
      JoinSplit(importId, ':');
      assert Join(parts[1..], ':') == parts[1];
      assert importId == parts[0] + [':'] + parts[1];
      var k := |parts[0]|;
      assert importId[..k] == parts[0];
      assert importId[k + 1..] == parts[1];
    }
  }

  /** Every address without `:` and every 64-bit index survive the trip through the identifier. */
  lemma ParseRoundTrip(ip: string, id: int)
    requires ':' !in ip
    requires MIN_INT64 <= id <= MAX_INT64
    ensures Parse(ip + ":" + Itoa(id)) == Indexed(ip, id)
  {
    ItoaHasNoColon(id);
    SplitAtFirst(ip, Itoa(id), ':');
    assert ip + ":" + Itoa(id) == ip + [':'] + Itoa(id);
    AtoiItoa(id);
  }

  /** The identifier of a plain IPv4 address and index. */
  lemma ParseAddressAndIndex()
    ensures Parse("192.168.1.1:2") == Indexed("192.168.1.1", 2)
  {
    ParseRoundTrip("192.168.1.1", 2);
    assert "192.168.1.1" + ":" + Itoa(2) == "192.168.1.1:2";
  }

  /** Atoi accepts a signed index, so a negative one passes the parse. */
  lemma ParseNegativeIndex()
    ensures Parse("10.0.0.5:-1") == Indexed("10.0.0.5", -1)
  {
    ParseRoundTrip("10.0.0.5", -1);
    assert "10.0.0.5" + ":" + Itoa(-1) == "10.0.0.5:-1";
  }

  /** With exactly one `:`, the address is what stands before it and the index
      is whatever Atoi makes of what stands after it, in any spelling Atoi takes
      (a sign, leading zeros); an index Atoi rejects is reported with its error. */
  lemma ParseSingleColon(ip: string, tail: string)
    requires ':' !in ip && ':' !in tail
    ensures Parse(ip + ":" + tail) ==
      (if Atoi(tail).Parsed? then Indexed(ip, Atoi(tail).n) else BadIndex(tail, Atoi(tail)))
  {
    SplitAtFirst(ip, tail, ':');
    assert ip + ":" + tail == ip + [':'] + tail;
  }

  /** A non-numeric index is a syntax error of Atoi. */
  lemma ParseNonNumericIndex()
    ensures Parse("addr:notanumber") == BadIndex("notanumber", SyntaxError)
  {
    var tail := "notanumber";
    assert ':' !in "addr" && ':' !in tail;
    assert Atoi(tail) == SyntaxError by {
      assert tail[0] == 'n' && !IsDigit(tail[0]);
    }
    ParseSingleColon("addr", tail);
    assert "addr" + ":" + tail == "addr:notanumber";
  }

  /** Atoi takes an explicit `+` and leading zeros, so neither spelling is rejected. */
  lemma ParsePlusSignedIndex()
    ensures Parse("a:+007") == Indexed("a", 7)
  {
    var tail := "+007";
    assert ':' !in "a" && ':' !in tail;
    assert tail[1..] == "007";
    assert DigitsValue("007") == 7 by {
      assert "007"[..2] == "00" && "00"[..1] == "0" && "0"[..0] == "";
    }
    assert Atoi(tail) == Parsed(7);
    ParseSingleColon("a", tail);
    assert "a" + ":" + tail == "a:+007";
  }

  /** An address without an index does not have two parts. */
  lemma ParseMissingIndex()
    ensures Parse("192.168.1.1") == BadFormat
  {
    ParseFormat("192.168.1.1");
  }

  /** An IPv6 address brings colons of its own, so it never has two parts. */
  lemma ParseIpv6Address()
    ensures Parse("fe80::1:0") == BadFormat
  {
    ParseFormat("fe80::1:0");
  }
}
