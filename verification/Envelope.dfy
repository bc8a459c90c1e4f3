/** The request envelope: typescript/src/base/encoding.ts, types.ts and the parsing half of
server.ts on one side, frontend/lib/enclave.ts on the other.  Names and payloads are octets. */
module Envelope {
  import opened Options
  import opened Abi
  import opened Protocol

  type Bytes = seq<Octet>

  // ---------------------------------------------------------------- hex

  function HexDigit(n: nat): char
    requires n < 16
  {
    if n < 10 then ('0' as int + n) as char else ('a' as int + (n - 10)) as char
  }

  function DigitOf(c: char): Option<nat> {
    if '0' <= c <= '9' then Some(c as int - '0' as int)
    else if 'a' <= c <= 'f' then Some(c as int - 'a' as int + 10)
    else if 'A' <= c <= 'F' then Some(c as int - 'A' as int + 10)
    else None
  }

  predicate IsHex(s: string) {
    forall i | 0 <= i < |s| :: DigitOf(s[i]).Some?
  }

  function Pair(b: Octet): string {
    [HexDigit(b / 16), HexDigit(b % 16)]
  }

  function HexBody(bs: Bytes): (s: string)
    ensures |s| == 2 * |bs|
  {
    if bs == [] then "" else HexBody(bs[..|bs| - 1]) + Pair(bs[|bs| - 1])
  }

  function BytesToHex(bs: Bytes): string {
    "0x" + HexBody(bs)
  }

  function OctetOf(hi: char, lo: char): Octet
    requires DigitOf(hi).Some? && DigitOf(lo).Some?
  {
    DigitOf(hi).value * 16 + DigitOf(lo).value
  }

  function PairsOf(s: string): Bytes
    requires |s| % 2 == 0 && IsHex(s)
  {
    seq(|s| / 2, i requires 0 <= i < |s| / 2 => OctetOf(s[2 * i], s[2 * i + 1]))
  }

  function StripPrefix(s: string): string {
    if |s| >= 2 && s[0] == '0' && (s[1] == 'x' || s[1] == 'X') then s[2..] else s
  }

  /** hexToBytes; None stands for its two exceptions, odd length and non-hex characters. */
  function HexToBytes(h: string): Option<Bytes> {
    var s := StripPrefix(h);
    if |s| % 2 == 0 && IsHex(s) then Some(PairsOf(s)) else None
  }

  lemma PairDecodes(b: Octet)
    ensures IsHex(Pair(b)) && OctetOf(Pair(b)[0], Pair(b)[1]) == b
  {
  }

  lemma {:induction false} HexBodyAt(bs: Bytes, i: nat)
    requires i < |bs|
    ensures HexBody(bs)[2 * i] == Pair(bs[i])[0] && HexBody(bs)[2 * i + 1] == Pair(bs[i])[1]
  {
    if i < |bs| - 1 {
      HexBodyAt(bs[..|bs| - 1], i);
    }
  }

  lemma HexBodyIsHex(bs: Bytes)
    ensures IsHex(HexBody(bs))
  {
    var s := HexBody(bs);
    forall k | 0 <= k < |s| ensures DigitOf(s[k]).Some? {
      HexBodyAt(bs, k / 2);
      PairDecodes(bs[k / 2]);
      assert k == 2 * (k / 2) || k == 2 * (k / 2) + 1;
    }
  }

  /** Decoding the hex of any octets gives them back. */
  lemma HexRoundTrip(bs: Bytes)
    ensures HexToBytes(BytesToHex(bs)) == Some(bs)
  {
    var s := HexBody(bs);
    assert StripPrefix(BytesToHex(bs)) == s;
    HexBodyIsHex(bs);
    forall i | 0 <= i < |bs| ensures PairsOf(s)[i] == bs[i] {
      HexBodyAt(bs, i);
      PairDecodes(bs[i]);
    }
    assert PairsOf(s) == bs;
  }

  predicate HexChar(c: char) {
    '0' <= c <= '9' || 'a' <= c <= 'f' || 'A' <= c <= 'F'
  }

  lemma DigitsMatch(c: char, n: nat)
    requires n < 16
    ensures HexDigit(n) == "0123456789abcdef"[n]
    ensures DigitOf(c).Some? <==> HexChar(c)
    ensures HexChar(LowerChar(c)) <==> HexChar(c)
    ensures DigitOf(c) == Some(n) <==> LowerChar(c) == HexDigit(n)
  {
  }

  /** A text decodes exactly when, behind an optional 0x or 0X, it has an even number of characters
      and all are hex digits of either case. */
  lemma HexDecodable(h: string)
    ensures var s := if |h| >= 2 && h[0] == '0' && h[1] in {'x', 'X'} then h[2..] else h;
            HexToBytes(h).Some? <==> |s| % 2 == 0 && forall i | 0 <= i < |s| :: HexChar(s[i])
  {
    var s := StripPrefix(h);
    forall i | 0 <= i < |s| ensures DigitOf(s[i]).Some? <==> HexChar(s[i]) {
      DigitsMatch(s[i], 0);
    }
  }

  /** The four bits that character k of the hex of some octets stands for. */
  function Nibble(bs: Bytes, k: nat): (n: nat)
    requires k < 2 * |bs|
    ensures n < 16
  {
    if k % 2 == 0 then bs[k / 2] / 16 else bs[k / 2] % 16
  }

  lemma HexBodyChar(bs: Bytes, k: nat)
    requires k < 2 * |bs|
    ensures HexBody(bs)[k] == HexDigit(Nibble(bs, k))
  {
    HexBodyAt(bs, k / 2);
    assert k == 2 * (k / 2) || k == 2 * (k / 2) + 1;
  }

  lemma PairsNibble(s: string, k: nat)
    requires |s| % 2 == 0 && IsHex(s) && k < |s|
    ensures Nibble(PairsOf(s), k) == DigitOf(s[k]).value
  {
    var i := k / 2;
    assert PairsOf(s)[i] == DigitOf(s[2 * i]).value * 16 + DigitOf(s[2 * i + 1]).value;
    assert k == 2 * i || k == 2 * i + 1;
  }

  lemma SameNibbles(a: Bytes, b: Bytes)
    requires |a| == |b| && forall k | 0 <= k < 2 * |a| :: Nibble(a, k) == Nibble(b, k)
    ensures a == b
  {
    forall i | 0 <= i < |a| ensures a[i] == b[i] {
      assert Nibble(a, 2 * i) == Nibble(b, 2 * i);
      assert Nibble(a, 2 * i + 1) == Nibble(b, 2 * i + 1);
    }
  }

  /** And it decodes to some octets exactly when its lower case, without that prefix, is their hex. */
  lemma HexDecodes(h: string, bs: Bytes)
    ensures HexToBytes(h) == Some(bs) <==> Lower(StripPrefix(h)) == HexBody(bs)
  {
    var s := StripPrefix(h);
    if HexToBytes(h) == Some(bs) {
      forall k | 0 <= k < |s| ensures LowerChar(s[k]) == HexBody(bs)[k] {
        PairsNibble(s, k);
        HexBodyChar(bs, k);
        DigitsMatch(s[k], Nibble(bs, k));
      }
      assert Lower(s) == HexBody(bs);
    }
    if Lower(s) == HexBody(bs) {
      LowerHexDecodes(s, bs);
    }
  }

  lemma LowerHexDecodes(s: string, bs: Bytes)
    requires Lower(s) == HexBody(bs)
    ensures |s| % 2 == 0 && IsHex(s) && PairsOf(s) == bs
  {
    assert |s| == |Lower(s)| == 2 * |bs|;
    forall k | 0 <= k < |s| ensures DigitOf(s[k]) == Some(Nibble(bs, k)) {
      HexBodyChar(bs, k);
      assert LowerChar(s[k]) == Lower(s)[k];
      DigitsMatch(s[k], Nibble(bs, k));
    }
    forall k | 0 <= k < |s| ensures Nibble(PairsOf(s), k) == Nibble(bs, k) {
      PairsNibble(s, k);
    }
    SameNibbles(PairsOf(s), bs);
  }

  lemma HexInjective(a: Bytes, b: Bytes)
    ensures BytesToHex(a) == BytesToHex(b) ==> a == b
  {
    HexRoundTrip(a);
    HexRoundTrip(b);
  }

  // ---------------------------------------------------------------- names

  function Padded(name: Bytes): (p: Bytes)
    requires |name| <= 32
    ensures |p| == 32
  {
    name + seq(32 - |name|, _ => 0)
  }

  /** The server's stringToBytes32Hex; None stands for its "too long" exception. */
  function ServerName(name: Bytes): Option<string> {
    if |name| > 32 then None else Some(BytesToHex(Padded(name)))
  }

  function Cut(name: Bytes): (c: Bytes)
    ensures |c| <= 32 && (|name| <= 32 ==> c == name)
  {
    name[..Min(|name|, 32)]
  }

  /** The browser's toBytes32Hex, which cuts instead of throwing. */
  function BrowserName(name: Bytes): string {
    BytesToHex(Padded(Cut(name)))
  }

  /** The two encoders agree exactly on the names that fit. */
  lemma EncodersAgree(name: Bytes)
    ensures ServerName(name) == Some(BrowserName(name)) <==> |name| <= 32
  {
  }

  /** The browser's name is the first 32 octets, filled up with zeros when there are fewer. */
  lemma BrowserNameCuts(name: Bytes)
    ensures |name| >= 32 ==> HexToBytes(BrowserName(name)) == Some(name[..32])
    ensures |name| < 32 ==> HexToBytes(BrowserName(name)) == Some(name + seq(32 - |name|, _ => 0))
  {
    HexRoundTrip(Padded(Cut(name)));
    if |name| >= 32 {
      assert Padded(name[..32]) == name[..32];
    }
  }

  function EmptyBytes32(): string {
    BytesToHex(Padded([]))
  }

  /** bytes32HexToString up to UTF-8: the decoded octets without trailing zeros. */
  function Trimmed(bs: Bytes): Bytes {
    if bs != [] && bs[|bs| - 1] == 0 then Trimmed(bs[..|bs| - 1]) else bs
  }

  /** Trimming drops zeros from the end, and all of them. */
  lemma {:induction false} TrimsExactly(bs: Bytes)
    ensures NoTrailingZero(Trimmed(bs)) && |Trimmed(bs)| <= |bs|
    ensures bs == Trimmed(bs) + seq(|bs| - |Trimmed(bs)|, _ => 0)
  {
    if bs != [] && bs[|bs| - 1] == 0 {
      var front := bs[..|bs| - 1];
      TrimsExactly(front);
      assert bs == front + [0];
    }
  }

  predicate NoTrailingZero(name: Bytes) {
    name != [] ==> name[|name| - 1] != 0
  }

  lemma {:induction false} TrimmedPadding(name: Bytes, k: nat)
    requires NoTrailingZero(name)
    ensures Trimmed(name + seq(k, _ => 0)) == name
  {
    var z := seq(k, _ => 0);
    if k == 0 {
      assert name + z == name;
    } else {
      assert (name + z)[..|name + z| - 1] == name + seq(k - 1, _ => 0);
      TrimmedPadding(name, k - 1);
    }
  }

  /** A name not ending in a zero octet survives encoding, decoding and trimming. */
  lemma NameRoundTrip(name: Bytes)
    requires |name| <= 32 && NoTrailingZero(name)
    ensures HexToBytes(BrowserName(name)) == Some(Padded(name)) && Trimmed(Padded(name)) == name
  {
    HexRoundTrip(Padded(name));
    TrimmedPadding(name, 32 - |name|);
  }

  // ---------------------------------------------------------------- lookup

  function LowerChar(c: char): char {
    if 'A' <= c <= 'Z' then (c as int + 32) as char else c
  }

  function Lower(s: string): string {
    seq(|s|, i requires 0 <= i < |s| => LowerChar(s[i]))
  }

  function Normalize(h: string): string {
    if h == "" then EmptyBytes32()
    else
      var lower := Lower(h);
      if |lower| >= 2 && lower[..2] == "0x" then lower else "0x" + lower
  }

  lemma LowerFixesHex(bs: Bytes)
    ensures Lower(BytesToHex(bs)) == BytesToHex(bs) && Normalize(BytesToHex(bs)) == BytesToHex(bs)
  {
    var s := BytesToHex(bs);
    forall k | 0 <= k < |s| ensures LowerChar(s[k]) == s[k] {
      if k >= 2 {
        HexBodyAt(bs, (k - 2) / 2);
        assert k - 2 == 2 * ((k - 2) / 2) || k - 2 == 2 * ((k - 2) / 2) + 1;
      }
    }
    assert Lower(s) == s;
    assert s[..2] == "0x";
  }

  datatype Entry<H> = Entry(opType: string, opCommand: string, handler: H)

  /** The first entry at or after `from` with this type and command, |entries| if there is none. */
  function FirstMatch<H>(entries: seq<Entry<H>>, t: string, c: string, from: nat): (i: nat)
    requires from <= |entries|
    ensures from <= i <= |entries|
    ensures i < |entries| ==> entries[i].opType == t && entries[i].opCommand == c
    ensures forall j | from <= j < i :: !(entries[j].opType == t && entries[j].opCommand == c)
    decreases |entries| - from
  {
    if from == |entries| || (entries[from].opType == t && entries[from].opCommand == c) then from
    else FirstMatch(entries, t, c, from + 1)
  }

  /** Exact pair first, then the type's wildcard; the first registration wins among equals. */
  function LookupSpec<H>(entries: seq<Entry<H>>, opType: string, opCommand: string): Option<H> {
    var t, c := Normalize(opType), Normalize(opCommand);
    var exact := FirstMatch(entries, t, c, 0);
    if exact < |entries| then Some(entries[exact].handler)
    else
      var wild := FirstMatch(entries, t, EmptyBytes32(), 0);
      if wild < |entries| then Some(entries[wild].handler) else None
  }

  /** A missing 0x prefix never matters either, and no command at all is the zero word. */
  lemma LookupIgnoresPrefix<H>(entries: seq<Entry<H>>, t: string, c: string)
    requires t != "" && c != "" && !("0x" <= Lower(t)) && !("0x" <= Lower(c))
    ensures LookupSpec(entries, "0x" + t, "0x" + c) == LookupSpec(entries, t, c)
    ensures LookupSpec(entries, t, "") == LookupSpec(entries, t, BytesToHex(seq(32, _ => 0)))
  {
    PrefixNormalized(t);
    PrefixNormalized(c);
    assert Padded([]) == seq(32, _ => 0);
    LowerFixesHex(Padded([]));
  }

  lemma PrefixNormalized(h: string)
    requires h != "" && !("0x" <= Lower(h))
    ensures Normalize("0x" + h) == Normalize(h) == "0x" + Lower(h)
  {
    assert Lower("0x" + h) == "0x" + Lower(h);
    assert |Lower(h)| >= 2 && Lower(h)[..2] == "0x" ==> "0x" <= Lower(h);
  }

  /** What lookup means: the handler of the first exact entry; only if there is none, that of the first
      entry for the type with the zero command; else none. */
  lemma LookupIsFirst<H>(entries: seq<Entry<H>>, opType: string, opCommand: string, i: nat)
    requires i < |entries| && entries[i].opType == Normalize(opType)
    ensures entries[i].opCommand == Normalize(opCommand)
            && (forall j | 0 <= j < i ::
                  !(entries[j].opType == Normalize(opType) && entries[j].opCommand == Normalize(opCommand)))
            ==> LookupSpec(entries, opType, opCommand) == Some(entries[i].handler)
    ensures (forall j | 0 <= j < |entries| ::
               !(entries[j].opType == Normalize(opType) && entries[j].opCommand == Normalize(opCommand)))
            && entries[i].opCommand == EmptyBytes32()
            && (forall j | 0 <= j < i ::
                  !(entries[j].opType == Normalize(opType) && entries[j].opCommand == EmptyBytes32()))
            ==> LookupSpec(entries, opType, opCommand) == Some(entries[i].handler)
  {
  }

  lemma LookupFindsNothing<H>(entries: seq<Entry<H>>, opType: string, opCommand: string)
    ensures LookupSpec(entries, opType, opCommand).None?
            <==> forall j | 0 <= j < |entries| && entries[j].opType == Normalize(opType) ::
                   entries[j].opCommand != Normalize(opCommand) && entries[j].opCommand != EmptyBytes32()
  {
  }

  lemma NormalizeIgnoresCase(h: string, h': string)
    requires Lower(h) == Lower(h')
    ensures Normalize(h) == Normalize(h')
  {
    assert |h| == |Lower(h)| == |h'|;
  }

  /** Hex case never matters. */
  lemma LookupIgnoresCase<H>(entries: seq<Entry<H>>, t: string, t': string, c: string, c': string)
    requires Lower(t) == Lower(t') && Lower(c) == Lower(c')
    ensures LookupSpec(entries, t, c) == LookupSpec(entries, t', c')
  {
    NormalizeIgnoresCase(t, t');
    NormalizeIgnoresCase(c, c');
  }

  // ---------------------------------------------------------------- registrations by name

  /** handle(opType, opCommand, handler) as the application writes it. */
  datatype Registration<H> = Registration(opType: Bytes, opCommand: Bytes, handler: H)

  predicate Fits<H>(r: Registration<H>) { |r.opType| <= 32 && |r.opCommand| <= 32 }

  predicate AllFit<H>(rs: seq<Registration<H>>) {
    forall i | 0 <= i < |rs| :: Fits(rs[i])
  }

  function EntryOf<H>(r: Registration<H>): Entry<H>
    requires Fits(r)
  {
    Entry(BytesToHex(Padded(r.opType)), BytesToHex(Padded(r.opCommand)), r.handler)
  }

  function EntriesOf<H>(rs: seq<Registration<H>>): (es: seq<Entry<H>>)
    requires AllFit(rs)
    ensures |es| == |rs|
    ensures forall i | 0 <= i < |rs| :: es[i] == EntryOf(rs[i])
  {
    seq(|rs|, i requires 0 <= i < |rs| => EntryOf(rs[i]))
  }

  /** The same bytes32: equal up to zero octets at the end. */
  predicate SameName(a: Bytes, b: Bytes)
    requires |a| <= 32 && |b| <= 32
  {
    Padded(a) == Padded(b)
  }

  /** The first registration of these names, |rs| if there is none. */
  function FirstNamed<H>(rs: seq<Registration<H>>, t: Bytes, c: Bytes, from: nat): (i: nat)
    requires AllFit(rs) && |t| <= 32 && |c| <= 32 && from <= |rs|
    ensures from <= i <= |rs|
    decreases |rs| - from
  {
    if from == |rs| || (SameName(rs[from].opType, t) && SameName(rs[from].opCommand, c)) then from
    else FirstNamed(rs, t, c, from + 1)
  }

  /** Which handler a pair of names should reach. */
  function Intended<H>(rs: seq<Registration<H>>, t: Bytes, c: Bytes): Option<H>
    requires AllFit(rs) && |t| <= 32 && |c| <= 32
  {
    var exact := FirstNamed(rs, t, c, 0);
    if exact < |rs| then Some(rs[exact].handler)
    else
      var wild := FirstNamed(rs, t, [], 0);
      if wild < |rs| then Some(rs[wild].handler) else None
  }

  lemma {:induction false} MatchByName<H>(rs: seq<Registration<H>>, t: Bytes, c: Bytes, from: nat)
    requires AllFit(rs) && |t| <= 32 && |c| <= 32 && from <= |rs|
    ensures FirstMatch(EntriesOf(rs), BytesToHex(Padded(t)), BytesToHex(Padded(c)), from) == FirstNamed(rs, t, c, from)
    decreases |rs| - from
  {
    if from < |rs| {
      HexInjective(Padded(rs[from].opType), Padded(t));
      HexInjective(Padded(rs[from].opCommand), Padded(c));
      MatchByName(rs, t, c, from + 1);
    }
  }

  // ---------------------------------------------------------------- names without a zero at the end

  predicate GoodName(name: Bytes) { |name| <= 32 && NoTrailingZero(name) }

  predicate AllClean<H>(rs: seq<Registration<H>>) {
    forall i | 0 <= i < |rs| :: GoodName(rs[i].opType) && GoodName(rs[i].opCommand)
  }

  /** The first registration of literally these names. */
  function FirstEqual<H>(rs: seq<Registration<H>>, t: Bytes, c: Bytes, from: nat): (i: nat)
    requires from <= |rs|
    ensures from <= i <= |rs|
    decreases |rs| - from
  {
    if from == |rs| || (rs[from].opType == t && rs[from].opCommand == c) then from
    else FirstEqual(rs, t, c, from + 1)
  }

  /** Names that do not end in a zero octet are the same bytes32 only when they are equal. */
  lemma SameNameIsEqual(a: Bytes, b: Bytes)
    requires GoodName(a) && GoodName(b)
    ensures SameName(a, b) <==> a == b
  {
    TrimmedPadding(a, 32 - |a|);
    TrimmedPadding(b, 32 - |b|);
  }

  /** For such names the handler reached is the first one registered for literally these names. */
  lemma {:induction false} FirstNamedIsEqual<H>(rs: seq<Registration<H>>, t: Bytes, c: Bytes, from: nat)
    requires AllClean(rs) && GoodName(t) && GoodName(c) && from <= |rs|
    ensures AllFit(rs) && FirstNamed(rs, t, c, from) == FirstEqual(rs, t, c, from)
    decreases |rs| - from
  {
    assert AllFit(rs);
    if from < |rs| {
      SameNameIsEqual(rs[from].opType, t);
      SameNameIsEqual(rs[from].opCommand, c);
      FirstNamedIsEqual(rs, t, c, from + 1);
    }
  }

  // ---------------------------------------------------------------- the envelope

  /** The members of DataFixed and Action that routing reads. */
  datatype DataFixed = DataFixed(opType: string, opCommand: string, originalMessage: string)
  datatype Action = Action(message: string)

  /** JSON text on both sides, assumed to parse back to what was printed. */
  datatype Codec = Codec(
    printFixed: DataFixed -> Bytes, parseFixed: Bytes -> Option<DataFixed>,
    printAction: Action -> string, parseAction: string -> Option<Action>)
  {
    ghost predicate Faithful() {
      && (forall d: DataFixed :: parseFixed(printFixed(d)) == Some(d))
      && (forall a: Action :: parseAction(printAction(a)) == Some(a))
    }
  }

  /** buildActionBody */
  function BuildActionBody(js: Codec, opType: Bytes, opCommand: Bytes, payload: Bytes): string {
    js.printAction(Action(BytesToHex(js.printFixed(
      DataFixed(BrowserName(opType), BrowserName(opCommand), BytesToHex(payload))))))
  }

  datatype Route<H> = BadRequest | Unsupported | Dispatched(handler: H, message: string)

  /** processAction up to the handler call. */
  function ProcessAction<H>(js: Codec, entries: seq<Entry<H>>, body: string): Route<H> {
    match js.parseAction(body)
    case None => BadRequest
    case Some(action) =>
      match HexToBytes(action.message)
      case None => BadRequest
      case Some(msgBytes) =>
        match js.parseFixed(msgBytes)
        case None => BadRequest
        case Some(df) => RouteFixed(entries, df)
  }

  function RouteFixed<H>(entries: seq<Entry<H>>, df: DataFixed): Route<H> {
    if df.opType == "" then BadRequest
    else
      match LookupSpec(entries, df.opType, df.opCommand)
      case None => Unsupported
      case Some(h) => Dispatched(h, df.originalMessage)
  }

  /** What is refused as malformed before any lookup: a body or a message that does not parse, hex that
      does not decode, and a missing type; everything else is routed by lookup alone. */
  lemma BadRequestExactly<H>(js: Codec, entries: seq<Entry<H>>, body: string)
    ensures var action := js.parseAction(body);
            var bytes := if action.Some? then HexToBytes(action.value.message) else None;
            var df := if bytes.Some? then js.parseFixed(bytes.value) else None;
            var route := ProcessAction(js, entries, body);
            && (route == BadRequest <==> df.None? || df.value.opType == "")
            && (route == Unsupported
                <==> df.Some? && df.value.opType != ""
                     && LookupSpec(entries, df.value.opType, df.value.opCommand).None?)
            && (route.Dispatched? ==>
                  && df.Some? && LookupSpec(entries, df.value.opType, df.value.opCommand) == Some(route.handler)
                  && route.message == df.value.originalMessage)
  {
  }

  lemma EnvelopeOpens<H>(js: Codec, entries: seq<Entry<H>>, opType: Bytes, opCommand: Bytes, payload: Bytes)
    requires js.Faithful()
    ensures ProcessAction(js, entries, BuildActionBody(js, opType, opCommand, payload))
            == RouteFixed(entries, DataFixed(BrowserName(opType), BrowserName(opCommand), BytesToHex(payload)))
  {
    var df := DataFixed(BrowserName(opType), BrowserName(opCommand), BytesToHex(payload));
    HexRoundTrip(js.printFixed(df));
    assert js.parseFixed(js.printFixed(df)) == Some(df);
  }

  /** Lookup on encoded names is lookup on names, those the browser cuts included. */
  lemma LookupByName<H>(rs: seq<Registration<H>>, t: Bytes, c: Bytes)
    requires AllFit(rs)
    ensures LookupSpec(EntriesOf(rs), BrowserName(t), BrowserName(c)) == Intended(rs, Cut(t), Cut(c))
  {
    LowerFixesHex(Padded(Cut(t)));
    LowerFixesHex(Padded(Cut(c)));
    MatchByName(rs, Cut(t), Cut(c), 0);
    MatchByName(rs, Cut(t), [], 0);
  }

  /** End to end, for all names: a body the browser builds reaches exactly the handler registered
      for the same bytes32 names (exact command before the type's default, first registration
      winning), with a message that decodes to exactly the payload; with no such handler it is
      unsupported.  Names over 32 octets act as their first 32. */
  lemma RequestReachesHandler<H>(js: Codec, rs: seq<Registration<H>>, t: Bytes, c: Bytes, payload: Bytes)
    requires js.Faithful() && AllFit(rs)
    ensures var route := ProcessAction(js, EntriesOf(rs), BuildActionBody(js, t, c, payload));
            match Intended(rs, Cut(t), Cut(c))
            case None => route == Unsupported
            case Some(h) => route.Dispatched? && route.handler == h && HexToBytes(route.message) == Some(payload)
  {
    EnvelopeOpens(js, EntriesOf(rs), t, c, payload);
    LookupByName(rs, t, c);
    HexRoundTrip(payload);
    assert |BrowserName(t)| >= 2;
  }

  /** With names that fit and do not end in a zero octet, registered for means registered under
      literally these names. */
  lemma CleanRequestReachesHandler<H>(js: Codec, rs: seq<Registration<H>>, t: Bytes, c: Bytes, payload: Bytes)
    requires js.Faithful() && AllClean(rs) && GoodName(t) && GoodName(c)
    ensures AllFit(rs)
    ensures var route := ProcessAction(js, EntriesOf(rs), BuildActionBody(js, t, c, payload));
            var exact, wild := FirstEqual(rs, t, c, 0), FirstEqual(rs, t, [], 0);
            var i := if exact < |rs| then exact else wild;
            if i == |rs| then route == Unsupported
            else route.Dispatched? && route.handler == rs[i].handler && HexToBytes(route.message) == Some(payload)
  {
    FirstNamedIsEqual(rs, t, c, 0);
    FirstNamedIsEqual(rs, t, [], 0);
    RequestReachesHandler(js, rs, t, c, payload);
  }

  // ---------------------------------------------------------------- the loops

  method HexToBytesLoop(h: string) returns (r: Option<Bytes>)
    ensures r == HexToBytes(h)
  {
    var s := h;
    if |s| >= 2 && s[0] == '0' && (s[1] == 'x' || s[1] == 'X') { s := s[2..]; }
    if |s| == 0 {
      assert PairsOf(s) == [];
      return Some([]);
    }
    if |s| % 2 != 0 { return None; }
    if !IsHex(s) { return None; }
    var out := new Octet[|s| / 2](_ => 0);
    for i := 0 to out.Length
      invariant forall j | 0 <= j < i :: out[j] == PairsOf(s)[j]
    {
      out[i] := OctetOf(s[2 * i], s[2 * i + 1]);
    }
    assert out[..] == PairsOf(s);
    return Some(out[..]);
  }

  /** The server's bytesToHex. */
  method BytesToHexLoop(b: Bytes) returns (s: string)
    ensures s == BytesToHex(b)
  {
    s := "0x";
    for i := 0 to |b|
      invariant s == BytesToHex(b[..i])
    {
      assert b[..i + 1][..i] == b[..i];
      var digits := if b[i] < 16 then ['0', HexDigit(b[i])] else [HexDigit(b[i] / 16), HexDigit(b[i] % 16)];
      s := s + digits;
    }
    assert b[..|b|] == b;
  }

  /** The browser's toHex, indexing its digit table. */
  method ToHexLoop(bytes: Bytes) returns (out: string)
    ensures out == BytesToHex(bytes)
  {
    var digits := "0123456789abcdef";
    out := "0x";
    for i := 0 to |bytes|
      invariant out == BytesToHex(bytes[..i])
    {
      assert bytes[..i + 1][..i] == bytes[..i];
      out := out + [digits[bytes[i] / 16]] + [digits[bytes[i] % 16]];
    }
    assert bytes[..|bytes|] == bytes;
  }

  method Bytes32HexToOctets(h: string) returns (r: Bytes)
    ensures r == match HexToBytes(h) case None => [] case Some(b) => Trimmed(b)
  {
    var decoded := HexToBytesLoop(h);
    if decoded.None? { return []; }
    var b := decoded.value;
    r := TrimLoop(b);
  }

  method TrimLoop(b: Bytes) returns (r: Bytes)
    ensures r == Trimmed(b)
  {
    var end := |b|;
    assert b[..end] == b;
    while end > 0 && b[end - 1] == 0
      invariant 0 <= end <= |b|
      invariant Trimmed(b) == Trimmed(b[..end])
    {
      assert b[..end][..end - 1] == b[..end - 1];
      end := end - 1;
    }
    return b[..end];
  }

  class Framework<H> {
    var handlers: seq<Entry<H>>

    constructor ()
      ensures handlers == []
    {
      handlers := [];
    }

    /** handle: false stands for the exception on a name that does not fit. */
    method Handle(r: Registration<H>) returns (ok: bool)
      modifies this
      ensures ok == Fits(r)
      ensures handlers == if Fits(r) then old(handlers) + [EntryOf(r)] else old(handlers)
    {
      if |r.opType| > 32 || |r.opCommand| > 32 { return false; }
      var t := BytesToHexLoop(Padded(r.opType));
      var c := BytesToHexLoop(Padded(r.opCommand));
      handlers := handlers + [Entry(t, c, r.handler)];
      return true;
    }

    method Lookup(opType: string, opCommand: string) returns (r: Option<H>)
      ensures r == LookupSpec(handlers, opType, opCommand)
    {
      var t, c := Normalize(opType), Normalize(opCommand);
      for i := 0 to |handlers|
        invariant FirstMatch(handlers, t, c, 0) == FirstMatch(handlers, t, c, i)
      {
        if handlers[i].opType == t && handlers[i].opCommand == c { return Some(handlers[i].handler); }
      }
      for i := 0 to |handlers|
        invariant FirstMatch(handlers, t, EmptyBytes32(), 0) == FirstMatch(handlers, t, EmptyBytes32(), i)
      {
        if handlers[i].opType == t && handlers[i].opCommand == EmptyBytes32() { return Some(handlers[i].handler); }
      }
      return None;
    }
  }
}
