/** The webhook signature header of the Stripe adapter: parsing, printing and acceptance. */
module Signature {
  import opened Domain

  /* ---------- splitting and joining ---------- */

  /** The first index of `c`, or the length when there is none. */
  function IndexOf(s: string, c: char): (r: nat)
    ensures r <= |s| && c !in s[..r] && (r < |s| ==> s[r] == c)
  {
    if |s| == 0 || s[0] == c then 0 else 1 + IndexOf(s[1..], c)
  }

  /** `strings.Split` at a comma: always at least one part. */
  function Split(s: string): (r: seq<string>)
    ensures |r| > 0
    decreases |s|
  {
    var i := IndexOf(s, ',');
    if i == |s| then [s] else [s[..i]] + Split(s[i + 1..])
  }

  function Join(parts: seq<string>): string {
    if |parts| == 0 then ""
    else if |parts| == 1 then parts[0]
    else parts[0] + "," + Join(parts[1..])
  }

  ghost predicate CommaFree(parts: seq<string>) {
    forall p | p in parts :: ',' !in p
  }

  lemma IndexOfIs(s: string, c: char, i: nat)
    requires i <= |s| && c !in s[..i] && (i < |s| ==> s[i] == c)
    ensures IndexOf(s, c) == i
  {
    var r := IndexOf(s, c);
    assert forall k | 0 <= k < i :: s[..i][k] != c;
    assert forall k | 0 <= k < r :: s[..r][k] != c;
  }

  lemma SplitFirst(x: string, rest: string)
    requires ',' !in x
    ensures Split(x + "," + rest) == [x] + Split(rest)
  {
    var h := x + "," + rest;
    assert h[..|x|] == x && h[|x| + 1..] == rest;
    IndexOfIs(h, ',', |x|);
  }

  lemma SplitOne(x: string)
    requires ',' !in x
    ensures Split(x) == [x]
  {
    assert x[..|x|] == x;
    IndexOfIs(x, ',', |x|);
  }

  /** Splitting undoes joining, whatever the comma-free parts are. */
  lemma {:induction false} SplitJoin(parts: seq<string>)
    requires |parts| > 0 && CommaFree(parts)
    ensures Split(Join(parts)) == parts
  {
    assert parts[0] in parts;
    if |parts| == 1 {
      SplitOne(parts[0]);
    } else {
      SplitFirst(parts[0], Join(parts[1..]));
      SplitJoin(parts[1..]);
      assert parts == [parts[0]] + parts[1..];
    }
  }

  /* ---------- the header ---------- */

  datatype Header = Header(ts: string, sigs: seq<string>)

  /** The scheme and the value of one part, cut at its first '='. */
  function Field(part: string): Option<(string, string)> {
    var kv := Trim(part);
    var i := IndexOf(kv, '=');
    if i == |kv| then None else Some((kv[..i], kv[i + 1..]))
  }

  function AddPart(h: Header, part: string): Header {
    match Field(part)
    case None => h
    case Some((k, v)) =>
      if k == "t" then h.(ts := v) else if k == "v1" then h.(sigs := h.sigs + [v]) else h
  }

  function AddAll(parts: seq<string>): Header {
    if |parts| == 0 then Header("", []) else AddPart(AddAll(parts[..|parts| - 1]), parts[|parts| - 1])
  }

  method ParseSigHeader(h: string) returns (ts: string, sigs: seq<string>)
    ensures Header(ts, sigs) == AddAll(Split(h))
  {
    ts, sigs := "", [];
    var parts := Split(h);
    for i := 0 to |parts|
      invariant Header(ts, sigs) == AddAll(parts[..i])
    {
      assert parts[..i + 1][..i] == parts[..i];
      var kv := Trim(parts[i]);
      var cut := IndexOf(kv, '=');
      if cut == |kv| { continue; }
      if kv[..cut] == "t" {
        ts := kv[cut + 1..];
      } else if kv[..cut] == "v1" {
        sigs := sigs + [kv[cut + 1..]];
      }
    }
    assert parts[..|parts|] == parts;
  }

  /* ---------- printing ---------- */

  function SigParts(sigs: seq<string>): (r: seq<string>)
    ensures |r| == |sigs|
  {
    seq(|sigs|, i requires 0 <= i < |sigs| => "v1=" + sigs[i])
  }

  /** `t=...,v1=...,v1=...` */
  function Printed(ts: string, sigs: seq<string>): string {
    Join(["t=" + ts] + SigParts(sigs))
  }

  /** Values may hold '=' and inner blanks, but no comma and no blank at the end. */
  predicate Value(v: string) {
    ',' !in v && (|v| > 0 ==> !IsSpace(v[|v| - 1]))
  }

  ghost predicate Values(vs: seq<string>) {
    forall i :: 0 <= i < |vs| ==> Value(vs[i])
  }

  lemma FieldOf(key: string, v: string)
    requires |key| > 0 && !IsSpace(key[0]) && '=' !in key && Value(v)
    ensures Field(key + "=" + v) == Some((key, v))
  {
    var part := key + "=" + v;
    assert !IsSpace(part[|part| - 1]) by {
      assert part[|part| - 1] == if |v| > 0 then v[|v| - 1] else '=';
    }
    TrimmedFixed(part);
    assert part[..|key|] == key;
    IndexOfIs(part, '=', |key|);
    assert part[|key| + 1..] == v;
  }

  lemma PartParsed(h: Header, v: string)
    requires Value(v)
    ensures AddPart(h, "t=" + v) == h.(ts := v)
    ensures AddPart(h, "v1=" + v) == h.(sigs := h.sigs + [v])
  {
    assert "t" + "=" == "t=" && "v1" + "=" == "v1=";
    FieldOf("t", v);
    FieldOf("v1", v);
  }

  lemma SigPartsSnoc(ts: string, sigs: seq<string>, v: string)
    ensures ["t=" + ts] + SigParts(sigs + [v]) == ["t=" + ts] + SigParts(sigs) + ["v1=" + v]
  {
  }

  lemma AddSnoc(parts: seq<string>, part: string)
    ensures AddAll(parts + [part]) == AddPart(AddAll(parts), part)
  {
    assert (parts + [part])[..|parts|] == parts;
  }

  lemma {:induction false} SigsParsed(ts: string, sigs: seq<string>)
    requires Value(ts) && Values(sigs)
    ensures AddAll(["t=" + ts] + SigParts(sigs)) == Header(ts, sigs)
  {
    if |sigs| == 0 {
      PartParsed(Header("", []), ts);
      AddSnoc([], "t=" + ts);
      assert ["t=" + ts] + SigParts(sigs) == [] + ["t=" + ts];
    } else {
      var n := |sigs| - 1;
      SigsParsed(ts, sigs[..n]);
      assert sigs[..n] + [sigs[n]] == sigs;
      SigPartsSnoc(ts, sigs[..n], sigs[n]);
      PartParsed(Header(ts, sigs[..n]), sigs[n]);
      AddSnoc(["t=" + ts] + SigParts(sigs[..n]), "v1=" + sigs[n]);
    }
  }

  lemma PartsCommaFree(ts: string, sigs: seq<string>)
    requires Value(ts) && Values(sigs)
    ensures CommaFree(["t=" + ts] + SigParts(sigs))
  {
    var parts := ["t=" + ts] + SigParts(sigs);
    forall p | p in parts ensures ',' !in p {
      var i :| 0 <= i < |parts| && parts[i] == p;
      assert i > 0 ==> Value(sigs[i - 1]);
    }
  }

  /** Parsing a printed header gives back the timestamp and the signatures, in order. */
  lemma RoundTrip(ts: string, sigs: seq<string>)
    requires Value(ts) && Values(sigs)
    ensures AddAll(Split(Printed(ts, sigs))) == Header(ts, sigs)
  {
    PartsCommaFree(ts, sigs);
    SplitJoin(["t=" + ts] + SigParts(sigs));
    SigsParsed(ts, sigs);
  }

  /* ---------- parts that do not matter ---------- */

  /** No '=' at all, or a scheme other than `t` and `v1`. */
  predicate Ignored(part: string) {
    match Field(part)
    case None => true
    case Some((k, _)) => k != "t" && k != "v1"
  }

  lemma {:induction false} IgnoredAnywhere(xs: seq<string>, p: string, ys: seq<string>)
    requires Ignored(p)
    ensures AddAll(xs + [p] + ys) == AddAll(xs + ys)
  {
    if |ys| == 0 {
      assert (xs + [p] + ys)[..|xs|] == xs;
      assert xs + ys == xs;
    } else {
      var n := |ys| - 1;
      IgnoredAnywhere(xs, p, ys[..n]);
      assert (xs + [p] + ys)[..|xs| + 1 + n] == xs + [p] + ys[..n];
      assert (xs + ys)[..|xs| + n] == xs + ys[..n];
    }
  }

  /** Inserting an entry of another scheme anywhere in a header does not change what is read from it. */
  lemma OtherSchemesIgnored(xs: seq<string>, p: string, ys: seq<string>)
    requires CommaFree(xs + [p] + ys) && Ignored(p)
    ensures AddAll(Split(Join(xs + [p] + ys))) == AddAll(Split(Join(xs + ys)))
  {
    SplitJoin(xs + [p] + ys);
    IgnoredAnywhere(xs, p, ys);
    if |xs + ys| > 0 {
      forall q | q in xs + ys ensures ',' !in q {
        assert q in xs + [p] + ys;
      }
      SplitJoin(xs + ys);
    } else {
      assert Split("") == [""];
      assert Ignored("");
      assert [""] == [] + [""] + [];
      IgnoredAnywhere([], "", []);
      assert xs + ys == [];
    }
  }

  /* ---------- blanks around parts ---------- */

  lemma {:induction false} TrimLeftSkips(l: string, s: string)
    requires AllBlank(l)
    ensures TrimLeft(l + s) == TrimLeft(s)
  {
    if |l| > 0 {
      assert (l + s)[1..] == l[1..] + s && l[0] in Blanks;
      TrimLeftSkips(l[1..], s);
    } else {
      assert l + s == s;
    }
  }

  lemma {:induction false} TrimRightSkips(s: string, r: string)
    requires AllBlank(r)
    ensures TrimRight(s + r) == TrimRight(s)
  {
    if |r| > 0 {
      var n := |r| - 1;
      assert (s + r)[..|s| + n] == s + r[..n] && r[n] in Blanks;
      TrimRightSkips(s, r[..n]);
    } else {
      assert s + r == s;
    }
  }

  lemma {:induction false} TrimLeftKeepsEnd(s: string, r: string)
    requires AllBlank(r)
    ensures TrimRight(TrimLeft(s + r)) == TrimRight(TrimLeft(s))
  {
    if |s| > 0 && IsSpace(s[0]) {
      assert (s + r)[1..] == s[1..] + r;
      TrimLeftKeepsEnd(s[1..], r);
    } else if |s| > 0 {
      TrimRightSkips(s, r);
    } else {
      assert s + r == r + "";
      TrimLeftSkips(r, "");
    }
  }

  /** `padded` is `part` with blanks before and after it. */
  ghost predicate Padded(part: string, padded: string) {
    exists l, r :: AllBlank(l) && AllBlank(r) && padded == l + (part + r)
  }

  lemma PaddedField(part: string, padded: string)
    requires Padded(part, padded)
    ensures Field(padded) == Field(part)
  {
    var l, r :| AllBlank(l) && AllBlank(r) && padded == l + (part + r);
    TrimLeftSkips(l, part + r);
    TrimLeftKeepsEnd(part, r);
  }

  lemma {:induction false} PaddedParts(parts: seq<string>, padded: seq<string>)
    requires |parts| == |padded| && forall i :: 0 <= i < |parts| ==> Padded(parts[i], padded[i])
    ensures AddAll(padded) == AddAll(parts)
  {
    if |parts| > 0 {
      var n := |parts| - 1;
      PaddedParts(parts[..n], padded[..n]);
      PaddedField(parts[n], padded[n]);
    }
  }

  /** Blanks around the parts of a header do not change what is read from it. */
  lemma BlanksIgnored(parts: seq<string>, padded: seq<string>)
    requires |parts| > 0 && CommaFree(parts) && CommaFree(padded)
    requires |parts| == |padded| && forall i :: 0 <= i < |parts| ==> Padded(parts[i], padded[i])
    ensures AddAll(Split(Join(padded))) == AddAll(Split(Join(parts)))
  {
    SplitJoin(parts);
    SplitJoin(padded);
    PaddedParts(parts, padded);
  }

  /* ---------- acceptance ---------- */

  /** `expected` is the keyed hash of the timestamp and the payload, as hex text. */
  method Accepts(header: string, expected: string -> string) returns (ok: bool)
    ensures ok <==> var h := AddAll(Split(header)); h.ts != "" && expected(h.ts) in h.sigs
  {
    var ts, sigs := ParseSigHeader(header);
    if ts == "" || |sigs| == 0 {
      return false;
    }
    var want := expected(ts);
    ok := false;
    for i := 0 to |sigs|
      invariant !ok && want !in sigs[..i]
    {
      if sigs[i] == want {
        ok := true;
        break;
      }
    }
    assert sigs[..|sigs|] == sigs;
  }

  /** With several signatures in one header (two secrets in use), one good signature is enough and needed. */
  lemma OneGoodSignature(ts: string, sigs: seq<string>, expected: string -> string)
    requires Value(ts) && Values(sigs)
    ensures (var h := AddAll(Split(Printed(ts, sigs))); h.ts != "" && expected(h.ts) in h.sigs) <==>
            ts != "" && exists i :: 0 <= i < |sigs| && sigs[i] == expected(ts)
  {
    RoundTrip(ts, sigs);
  }

  /** `VerifyWebhookSignature`: the payload is decoded only after the signature was accepted. */
  method Verify(header: string, payload: string, expected: string -> string, decode: string -> Result<Event>) returns (r: Result<Event>)
    ensures var h := AddAll(Split(header));
            r == if h.ts != "" && expected(h.ts) in h.sigs then decode(payload) else Err(Invalid)
  {
    var ok := Accepts(header, expected);
    r := if ok then decode(payload) else Err(Invalid);
  }
}
