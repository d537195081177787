/** The `solana:` URL encoders for a payment and for a mint: each collects an
    ordered list of query parameters under fixed ordering and omission rules,
    renders every one as `key=encodeURIComponent(value)` joined by `&`, and
    appends `?` and the query to the encoded recipient only when the query is
    not empty. A URL reader is given beside them as the partner of the round
    trip. */
module EncodeUrl {
  import opened Wrappers
  import opened Strings
  import UriComponent
  import Decimal
  import opened Solana

  const URL_PROTOCOL := "solana:"

  /** `EncodePayURLParams`: `undefined` is `None`. */
  datatype PayParams = PayParams(
    amount: Option<Decimal.Decimal>,
    splToken: Option<Key>,
    reference: Reference,
    labelText: Option<string>,
    message: Option<string>,
    memo: Option<string>)

  /** `EncodeMintURLParams`. The three keys are declared required, but the
      encoder tests each of them, so each is optional here. */
  datatype MintParams = MintParams(
    candymachineId: Option<Key>,
    config: Option<Key>,
    treasury: Option<Key>,
    reference: Reference,
    labelText: Option<string>,
    message: Option<string>,
    memo: Option<string>)

  /** One `[key, value]` entry of the `params` array, before encoding. */
  datatype Param = Param(key: string, value: string)

  /** JavaScript truthiness of an optional string: present and not `""`. */
  predicate Truthy(s: Option<string>) {
    s.Some? && s.value != ""
  }

  function TextParam(key: string, s: Option<string>): seq<Param> {
    if Truthy(s) then [Param(key, s.value)] else []
  }

  function KeyParam(key: string, k: Option<Key>): seq<Param> {
    if k.Some? then [Param(key, k.value.base58)] else []
  }

  function ReferenceParams(keys: seq<Key>): seq<Param> {
    seq(|keys|, i requires 0 <= i < |keys| => Param("reference", keys[i].base58))
  }

  /** What both encoders emit after their leading entries: one `reference`
      per key in order, then `label`, `message` and `memo` when truthy. */
  function TailParams(reference: Reference, labelText: Option<string>, message: Option<string>, memo: Option<string>): seq<Param> {
    ReferenceParams(ReferenceList(reference)) + TextParam("label", labelText)
      + TextParam("message", message) + TextParam("memo", memo)
  }

  /** The entries `encodePayURLParams` collects. A BigNumber is always truthy,
      so a present amount is emitted even when it is zero. */
  function PayParamList(p: PayParams): seq<Param> {
    (if p.amount.Some? then [Param("amount", Decimal.FixedText(p.amount.value))] else [])
      + KeyParam("spl-token", p.splToken)
      + TailParams(p.reference, p.labelText, p.message, p.memo)
  }

  /** The entries `encodeMintURLParams` collects: candy machine, config and
      treasury, all three under `spl-token`, then the common tail. */
  function MintParamList(m: MintParams): seq<Param> {
    KeyParam("spl-token", m.candymachineId) + KeyParam("spl-token", m.config)
      + KeyParam("spl-token", m.treasury)
      + TailParams(m.reference, m.labelText, m.message, m.memo)
  }

  function RenderParam(p: Param): string {
    p.key + "=" + UriComponent.Encode(p.value)
  }

  /** `params.map(([key, value]) => key=encodeURIComponent(value)).join('&')`. */
  function RenderQuery(ps: seq<Param>): string {
    Join(seq(|ps|, i requires 0 <= i < |ps| => RenderParam(ps[i])), "&")
  }

  /** The URL for a recipient and a list of entries: `?` and the query only
      when there are entries. */
  function UrlOf(recipient: Key, ps: seq<Param>): string {
    URL_PROTOCOL + UriComponent.Encode(recipient.base58)
      + (if ps == [] then "" else "?" + RenderQuery(ps))
  }

  /** A key the query can carry unambiguously. */
  predicate PlainKey(key: string) {
    key != "" && '=' !in key && '&' !in key
  }

  // The encoders, as `encodeURL.ts` writes them.

  /** `encodePayURLParams`. */
  method EncodePayUrlParams(p: PayParams) returns (query: string)
    ensures query == RenderQuery(PayParamList(p))
  {
    var params: seq<Param> := [];
    if p.amount.Some? {
      params := params + [Param("amount", Decimal.FixedText(p.amount.value))];
    }
    if p.splToken.Some? {
      params := params + [Param("spl-token", p.splToken.value.base58)];
    }
    params := PushTail(params, p.reference, p.labelText, p.message, p.memo);
    assert params == PayParamList(p);
    query := RenderQuery(params);
  }

  /** `encodeMintURLParams`. */
  method EncodeMintUrlParams(m: MintParams) returns (query: string)
    ensures query == RenderQuery(MintParamList(m))
  {
    var params: seq<Param> := [];
    if m.candymachineId.Some? {
      params := params + [Param("spl-token", m.candymachineId.value.base58)];
    }
    if m.config.Some? {
      params := params + [Param("spl-token", m.config.value.base58)];
    }
    if m.treasury.Some? {
      params := params + [Param("spl-token", m.treasury.value.base58)];
    }
    params := PushTail(params, m.reference, m.labelText, m.message, m.memo);
    assert params == MintParamList(m);
    query := RenderQuery(params);
  }

  /** The part both encoders share, from `if (reference)` to `if (memo)`. */
  method PushTail(params: seq<Param>, reference: Reference, labelText: Option<string>,
                  message: Option<string>, memo: Option<string>) returns (r: seq<Param>)
    ensures r == params + TailParams(reference, labelText, message, memo)
  {
    r := PushReferences(params, reference);
    r := PushText(r, "label", labelText);
    r := PushText(r, "message", message);
    r := PushText(r, "memo", memo);
  }

  /** The `if (reference)` block both encoders share: a single key is
      wrapped in a list, then one entry is pushed per key. */
  method PushReferences(params: seq<Param>, reference: Reference) returns (r: seq<Param>)
    ensures r == params + ReferenceParams(ReferenceList(reference))
  {
    r := params;
    if !reference.NoReference? {
      var keys := if reference.OneReference? then [reference.key] else reference.keys;
      for i := 0 to |keys|
        invariant r == params + ReferenceParams(keys[..i])
      {
        assert ReferenceParams(keys[..i + 1]) == ReferenceParams(keys[..i]) + [Param("reference", keys[i].base58)];
        r := r + [Param("reference", keys[i].base58)];
      }
      assert keys[..|keys|] == keys;
    }
  }

  /** `if (label) params.push(['label', label])`, and likewise for `message`
      and `memo`. */
  method PushText(params: seq<Param>, key: string, s: Option<string>) returns (r: seq<Param>)
    ensures r == params + TextParam(key, s)
  {
    r := params;
    if s.Some? && s.value != "" {
      r := r + [Param(key, s.value)];
    }
  }

  /** `encodePayURL`. */
  method EncodePayUrl(recipient: Key, p: PayParams) returns (url: string)
    ensures url == UrlOf(recipient, PayParamList(p))
  {
    url := URL_PROTOCOL + UriComponent.Encode(recipient.base58);
    var encodedParams := EncodePayUrlParams(p);
    RenderQueryEmpty(PayParamList(p));
    if encodedParams != "" {
      url := url + "?" + encodedParams;
    }
  }

  /** `encodeMintURL`. */
  method EncodeMintUrl(recipient: Key, m: MintParams) returns (url: string)
    ensures url == UrlOf(recipient, MintParamList(m))
  {
    url := URL_PROTOCOL + UriComponent.Encode(recipient.base58);
    var encodedParams := EncodeMintUrlParams(m);
    RenderQueryEmpty(MintParamList(m));
    if encodedParams != "" {
      url := url + "?" + encodedParams;
    }
  }

  // Reading a URL back.

  function ParseParam(segment: string): Option<Param> {
    match IndexOf(segment, '=')
    case None => None
    case Some(i) =>
      match UriComponent.Decode(segment[i + 1..])
      case None => None
      case Some(v) => Some(Param(segment[..i], v))
  }

  function ParseParams(segments: seq<string>): Option<seq<Param>> {
    if segments == [] then Some([])
    else
      match ParseParam(segments[0])
      case None => None
      case Some(p) =>
        match ParseParams(segments[1..])
        case None => None
        case Some(ps) => Some([p] + ps)
  }

  function ParseQuery(q: string): Option<seq<Param>> {
    if q == "" then Some([]) else ParseParams(Split(q, '&'))
  }

  /** The recipient's base-58 text and the entries of a `solana:` URL. */
  function ParseUrl(url: string): Option<(string, seq<Param>)> {
    if |url| < |URL_PROTOCOL| || url[..|URL_PROTOCOL|] != URL_PROTOCOL then None
    else
      var rest := url[|URL_PROTOCOL|..];
      var split := match IndexOf(rest, '?')
        case None => (rest, "")
        case Some(i) => (rest[..i], rest[i + 1..]);
      var path, query := split.0, split.1;
      match UriComponent.Decode(path)
      case None => None
      case Some(recipient) =>
        match ParseQuery(query)
        case None => None
        case Some(ps) => Some((recipient, ps))
  }

  // Properties of the rendering.

  /** The query is empty exactly when there are no entries, so testing the
      query string and testing the list agree. */
  lemma RenderQueryEmpty(ps: seq<Param>)
    ensures RenderQuery(ps) == "" <==> ps == []
  {
    if ps != [] {
      var parts := seq(|ps|, i requires 0 <= i < |ps| => RenderParam(ps[i]));
      JoinKeepsFirst(parts, "&");
      assert '=' in RenderParam(ps[0]);
    }
  }

  lemma {:induction false} ParseParamRender(p: Param)
    requires PlainKey(p.key)
    ensures ParseParam(RenderParam(p)) == Some(p)
  {
    var e := UriComponent.Encode(p.value);
    var s := RenderParam(p);
    assert s == p.key + ['='] + e;
    IndexOfAfter(p.key, '=', e);
    assert s[..|p.key|] == p.key;
    assert s[|p.key| + 1..] == e;
    UriComponent.DecodeEncode(p.value);
  }

  lemma {:induction false} RenderParamHasNoAmpersand(p: Param)
    requires PlainKey(p.key)
    ensures '&' !in RenderParam(p)
  {
    EncodedHasNo(p.value, '&');
  }

  lemma {:induction false} ParseParamsRender(ps: seq<Param>)
    requires forall i :: 0 <= i < |ps| ==> PlainKey(ps[i].key)
    ensures ParseParams(seq(|ps|, i requires 0 <= i < |ps| => RenderParam(ps[i]))) == Some(ps)
  {
    var parts := seq(|ps|, i requires 0 <= i < |ps| => RenderParam(ps[i]));
    if ps != [] {
      var rest := seq(|ps[1..]|, i requires 0 <= i < |ps[1..]| => RenderParam(ps[1..][i]));
      assert parts[1..] == rest;
      assert parts[0] == RenderParam(ps[0]);
      ParseParamRender(ps[0]);
      ParseParamsRender(ps[1..]);
      assert ParseParams(parts) == Some([ps[0]] + ps[1..]);
      assert [ps[0]] + ps[1..] == ps;
    }
  }

  /** Round trip of the query: splitting at `&` and at each first `=` and
      percent-decoding the values gives the entries back, in order and with
      repeated keys kept. */
  lemma QueryRoundTrip(ps: seq<Param>)
    requires forall i :: 0 <= i < |ps| ==> PlainKey(ps[i].key)
    ensures ParseQuery(RenderQuery(ps)) == Some(ps)
  {
    RenderQueryEmpty(ps);
    if ps != [] {
      var parts := seq(|ps|, i requires 0 <= i < |ps| => RenderParam(ps[i]));
      forall i | 0 <= i < |parts|
        ensures '&' !in parts[i]
      {
        RenderParamHasNoAmpersand(ps[i]);
      }
      SplitJoin(parts, '&');
      ParseParamsRender(ps);
    }
  }

  /** Round trip of the URL: reading it gives the recipient's base-58 text and
      the entries. */
  lemma UrlRoundTrip(recipient: Key, ps: seq<Param>)
    requires forall i :: 0 <= i < |ps| ==> PlainKey(ps[i].key)
    ensures ParseUrl(UrlOf(recipient, ps)) == Some((recipient.base58, ps))
  {
    var url := UrlOf(recipient, ps);
    var path := UriComponent.Encode(recipient.base58);
    var rest := url[|URL_PROTOCOL|..];
    assert url[..|URL_PROTOCOL|] == URL_PROTOCOL;
    RestSplits(recipient, ps);
    UriComponent.DecodeEncode(recipient.base58);
    if ps != [] {
      QueryRoundTrip(ps);
      ParseUrlParts(url, rest[..|path|], rest[|path| + 1..], recipient.base58, ps);
    } else {
      ParseUrlWhole(url, recipient.base58);
    }
  }

  /** Reading a URL whose body splits at its first `?` into parts that decode. */
  lemma ParseUrlParts(url: string, path: string, query: string, recipient: string, ps: seq<Param>)
    requires |url| >= |URL_PROTOCOL| && url[..|URL_PROTOCOL|] == URL_PROTOCOL
    requires IndexOf(url[|URL_PROTOCOL|..], '?') == Some(|path|)
    requires url[|URL_PROTOCOL|..][..|path|] == path && url[|URL_PROTOCOL|..][|path| + 1..] == query
    requires UriComponent.Decode(path) == Some(recipient) && ParseQuery(query) == Some(ps)
    ensures ParseUrl(url) == Some((recipient, ps))
  {
  }

  /** Reading a URL whose body has no `?` and decodes. */
  lemma ParseUrlWhole(url: string, recipient: string)
    requires |url| >= |URL_PROTOCOL| && url[..|URL_PROTOCOL|] == URL_PROTOCOL
    requires IndexOf(url[|URL_PROTOCOL|..], '?') == None
    requires UriComponent.Decode(url[|URL_PROTOCOL|..]) == Some(recipient)
    ensures ParseUrl(url) == Some((recipient, []))
  {
    assert ParseQuery("") == Some([]);
  }

  /** A URL body cut at its first `?`, when the path has none. */
  lemma CutAtQuestion(protocol: string, path: string, q: string)
    requires '?' !in path
    ensures var rest := (protocol + path + "?" + q)[|protocol|..];
      IndexOf(rest, '?') == Some(|path|) && rest[..|path|] == path && rest[|path| + 1..] == q
  {
    var rest := (protocol + path + "?" + q)[|protocol|..];
    assert rest == path + ['?'] + q;
    IndexOfAfter(path, '?', q);
    assert rest[..|path|] == path;
    assert rest[|path| + 1..] == q;
  }

  /** After the protocol, the first `?` separates the encoded recipient from
      the query. */
  lemma RestSplits(recipient: Key, ps: seq<Param>)
    ensures var rest := UrlOf(recipient, ps)[|URL_PROTOCOL|..];
            var path := UriComponent.Encode(recipient.base58);
            (ps == [] ==> rest == path && IndexOf(rest, '?') == None) &&
            (ps != [] ==>
               IndexOf(rest, '?') == Some(|path|) && rest[..|path|] == path && rest[|path| + 1..] == RenderQuery(ps))
  {
    var path := UriComponent.Encode(recipient.base58);
    EncodedHasNo(recipient.base58, '?');
    if ps == [] {
      assert UrlOf(recipient, ps) == URL_PROTOCOL + path;
      assert (URL_PROTOCOL + path)[|URL_PROTOCOL|..] == path;
    } else {
      var q := RenderQuery(ps);
      assert UrlOf(recipient, ps) == URL_PROTOCOL + path + "?" + q;
      CutAtQuestion(URL_PROTOCOL, path, q);
    }
  }

  lemma EncodedHasNo(s: string, c: char)
    requires !UriComponent.IsEncodedChar(c)
    ensures c !in UriComponent.Encode(s)
  {
    UriComponent.EncodeChars(s);
  }

  /** `?` appears exactly when there is at least one entry: the protocol and
      the encoded recipient never contain one. */
  lemma QuestionMarkIffParams(recipient: Key, ps: seq<Param>)
    ensures '?' in UrlOf(recipient, ps) <==> ps != []
    ensures UrlOf(recipient, ps)[..|URL_PROTOCOL|] == URL_PROTOCOL
  {
    var url := UrlOf(recipient, ps);
    var head := URL_PROTOCOL + UriComponent.Encode(recipient.base58);
    EncodedHasNo(recipient.base58, '?');
    assert '?' !in head;
    if ps == [] {
      assert url == head;
    } else {
      assert url[|head|] == '?';
    }
  }

  // Properties of the entry lists.

  /** The position of a key in the order the encoders emit. */
  function Rank(key: string): nat {
    if key == "amount" then 0
    else if key == "spl-token" then 1
    else if key == "reference" then 2
    else if key == "label" then 3
    else if key == "message" then 4
    else 5
  }

  predicate Ordered(ps: seq<Param>) {
    forall i, j :: 0 <= i < j < |ps| ==> Rank(ps[i].key) <= Rank(ps[j].key)
  }

  /** Every entry carries `key`. */
  predicate AllUnder(ps: seq<Param>, key: string) {
    forall i :: 0 <= i < |ps| ==> ps[i].key == key
  }

  lemma OrderedAppend(a: seq<Param>, b: seq<Param>, key: string, lo: nat)
    requires Ordered(a) && AllUnder(b, key) && lo <= Rank(key)
    requires forall i :: 0 <= i < |a| ==> lo <= Rank(a[i].key) <= Rank(key)
    ensures Ordered(a + b)
    ensures forall i :: 0 <= i < |a + b| ==> lo <= Rank((a + b)[i].key) <= Rank(key)
  {
    forall i | 0 <= i < |a + b|
      ensures lo <= Rank((a + b)[i].key) <= Rank(key)
    {
      if i < |a| { assert (a + b)[i] == a[i]; } else { assert (a + b)[i] == b[i - |a|]; }
    }
    forall i, j | 0 <= i < j < |a + b|
      ensures Rank((a + b)[i].key) <= Rank((a + b)[j].key)
    {
      if j < |a| {
        assert (a + b)[i] == a[i] && (a + b)[j] == a[j];
      } else {
        assert (a + b)[j] == b[j - |a|];
      }
    }
  }

  /** The values of the entries under `key`, in order. */
  function Values(ps: seq<Param>, key: string): seq<string> {
    if ps == [] then []
    else (if ps[0].key == key then [ps[0].value] else []) + Values(ps[1..], key)
  }

  lemma {:induction false} ValuesAppend(a: seq<Param>, b: seq<Param>, key: string)
    ensures Values(a + b, key) == Values(a, key) + Values(b, key)
  {
    if a != [] {
      assert (a + b)[1..] == a[1..] + b;
      ValuesAppend(a[1..], b, key);
    } else {
      assert a + b == b;
    }
  }

  function Texts(keys: seq<Key>): seq<string> {
    seq(|keys|, i requires 0 <= i < |keys| => keys[i].base58)
  }

  lemma {:induction false} ReferenceValues(keys: seq<Key>, key: string)
    ensures Values(ReferenceParams(keys), key) == if key == "reference" then Texts(keys) else []
  {
    if keys != [] {
      ReferenceValues(keys[1..], key);
      assert ReferenceParams(keys)[1..] == ReferenceParams(keys[1..]);
      assert Texts(keys) == [keys[0].base58] + Texts(keys[1..]);
    }
  }

  function OptionalText(s: Option<string>): seq<string> {
    if Truthy(s) then [s.value] else []
  }

  function OptionalKey(k: Option<Key>): seq<string> {
    if k.Some? then [k.value.base58] else []
  }

  lemma SingleValues(ps: seq<Param>, key: string, want: string)
    requires |ps| <= 1 && AllUnder(ps, want)
    ensures Values(ps, key) == if key == want then (if ps == [] then [] else [ps[0].value]) else []
  {
    if ps != [] {
      assert ps[1..] == [];
    }
  }

  lemma ValuesOfFour(a: seq<Param>, b: seq<Param>, c: seq<Param>, d: seq<Param>, key: string)
    ensures Values(a + b + c + d, key) == Values(a, key) + Values(b, key) + Values(c, key) + Values(d, key)
  {
    ValuesAppend(a + b + c, d, key);
    ValuesAppend(a + b, c, key);
    ValuesAppend(a, b, key);
  }

  /** Four value lists, each empty unless its own condition holds, at most
      one condition holding: their concatenation is the selected list. */
  lemma SelectOfFour(vr: seq<string>, vl: seq<string>, vg: seq<string>, vo: seq<string>,
                     R: seq<string>, L: seq<string>, G: seq<string>, O: seq<string>,
                     cr: bool, cl: bool, cg: bool, co: bool)
    requires vr == (if cr then R else []) && vl == (if cl then L else [])
    requires vg == (if cg then G else []) && vo == (if co then O else [])
    requires (cr ==> !cl && !cg && !co) && (cl ==> !cg && !co) && (cg ==> !co)
    ensures vr + vl + vg + vo == if cr then R else if cl then L else if cg then G else if co then O else []
  {
    if cr {
      assert vr + vl + vg + vo == R + [] + [] + [];
    } else if cl {
      assert vr + vl + vg + vo == [] + L + [] + [];
    } else if cg {
      assert vr + vl + vg + vo == [] + [] + G + [];
    } else if co {
      assert vr + vl + vg + vo == [] + [] + [] + O;
    } else {
      assert vr + vl + vg + vo == [] + [] + [] + [];
    }
  }

  /** The values of four entry lists under `key`, each list's own values
      known. */
  lemma ValuesOfTail(r: seq<Param>, l: seq<Param>, g: seq<Param>, o: seq<Param>, key: string,
                     R: seq<string>, L: seq<string>, G: seq<string>, O: seq<string>)
    requires Values(r, key) == (if key == "reference" then R else [])
    requires Values(l, key) == (if key == "label" then L else [])
    requires Values(g, key) == (if key == "message" then G else [])
    requires Values(o, key) == (if key == "memo" then O else [])
    ensures Values(r + l + g + o, key)
         == if key == "reference" then R else if key == "label" then L
            else if key == "message" then G else if key == "memo" then O else []
  {
    ValuesOfFour(r, l, g, o, key);
    assert |"reference"| == 9 && |"label"| == 5 && |"message"| == 7 && |"memo"| == 4;
    SelectOfFour(Values(r, key), Values(l, key), Values(g, key), Values(o, key), R, L, G, O,
                 key == "reference", key == "label", key == "message", key == "memo");
  }

  /** The entries the common tail holds under each key: every reference, in
      input order, and `label`, `message`, `memo` exactly when truthy. */
  lemma TailValues(reference: Reference, labelText: Option<string>, message: Option<string>,
                   memo: Option<string>, key: string)
    ensures Values(TailParams(reference, labelText, message, memo), key)
         == if key == "reference" then Texts(ReferenceList(reference))
            else if key == "label" then OptionalText(labelText)
            else if key == "message" then OptionalText(message)
            else if key == "memo" then OptionalText(memo)
            else []
  {
    var r := ReferenceParams(ReferenceList(reference));
    var l, g, o := TextParam("label", labelText), TextParam("message", message), TextParam("memo", memo);
    ReferenceValues(ReferenceList(reference), key);
    SingleValues(l, key, "label");
    SingleValues(g, key, "message");
    SingleValues(o, key, "memo");
    ValuesOfTail(r, l, g, o, key, Texts(ReferenceList(reference)), OptionalText(labelText),
                 OptionalText(message), OptionalText(memo));
  }

  lemma TailOrdered(reference: Reference, labelText: Option<string>, message: Option<string>, memo: Option<string>)
    ensures Ordered(TailParams(reference, labelText, message, memo))
    ensures forall i :: 0 <= i < |TailParams(reference, labelText, message, memo)|
              ==> 2 <= Rank(TailParams(reference, labelText, message, memo)[i].key)
  {
    var r := ReferenceParams(ReferenceList(reference));
    var l, g, o := TextParam("label", labelText), TextParam("message", message), TextParam("memo", memo);
    assert AllUnder(r, "reference");
    assert AllUnder(l, "label") && AllUnder(g, "message") && AllUnder(o, "memo");
    OrderedOfFour(r, l, g, o);
    assert TailParams(reference, labelText, message, memo) == r + l + g + o;
  }

  /** Lists under `reference`, `label`, `message` and `memo`, in that order,
      are ordered and rank after `spl-token`. */
  lemma OrderedOfFour(r: seq<Param>, l: seq<Param>, g: seq<Param>, o: seq<Param>)
    requires AllUnder(r, "reference") && AllUnder(l, "label") && AllUnder(g, "message") && AllUnder(o, "memo")
    ensures Ordered(r + l + g + o)
    ensures forall i :: 0 <= i < |r + l + g + o| ==> 2 <= Rank((r + l + g + o)[i].key)
  {
    assert Rank("reference") == 2 && Rank("label") == 3 && Rank("message") == 4 && Rank("memo") == 5;
    OrderedAppend([], r, "reference", 2);
    assert [] + r == r;
    OrderedAppend(r, l, "label", 2);
    OrderedAppend(r + l, g, "message", 2);
    OrderedAppend(r + l + g, o, "memo", 2);
  }

  /** The pay encoder emits its entries in the fixed order amount,
      spl-token, references, label, message, memo. */
  lemma PayParamsOrdered(p: PayParams)
    ensures Ordered(PayParamList(p))
  {
    var a: seq<Param> := if p.amount.Some? then [Param("amount", Decimal.FixedText(p.amount.value))] else [];
    var k := KeyParam("spl-token", p.splToken);
    var t := TailParams(p.reference, p.labelText, p.message, p.memo);
    TailOrdered(p.reference, p.labelText, p.message, p.memo);
    assert Ordered(a + k);
    assert forall i, j :: 0 <= i < |a + k| && 0 <= j < |t| ==> Rank((a + k)[i].key) <= Rank(t[j].key);
  }

  /** What the pay encoder emits under each key: the amount in fixed-point
      text when present (zero included), the token when present, one entry
      per reference in input order (so as many as there are references),
      and `label`, `message` and `memo` exactly when present and not empty.
      No other key appears. */
  lemma PayParamValues(p: PayParams, key: string)
    ensures Values(PayParamList(p), key)
         == if key == "amount" then (if p.amount.Some? then [Decimal.FixedText(p.amount.value)] else [])
            else if key == "spl-token" then OptionalKey(p.splToken)
            else if key == "reference" then Texts(ReferenceList(p.reference))
            else if key == "label" then OptionalText(p.labelText)
            else if key == "message" then OptionalText(p.message)
            else if key == "memo" then OptionalText(p.memo)
            else []
  {
    var a: seq<Param> := if p.amount.Some? then [Param("amount", Decimal.FixedText(p.amount.value))] else [];
    var k := KeyParam("spl-token", p.splToken);
    var t := TailParams(p.reference, p.labelText, p.message, p.memo);
    ValuesAppend(a + k, t, key);
    ValuesAppend(a, k, key);
    SingleValues(a, key, "amount");
    SingleValues(k, key, "spl-token");
    TailValues(p.reference, p.labelText, p.message, p.memo, key);
  }

  /** The amount's entry reads back as the amount itself, written with
      exactly `decimalPlaces()` fractional digits. */
  lemma PayAmountReadsBack(p: PayParams)
    requires p.amount.Some?
    ensures |Values(PayParamList(p), "amount")| == 1
    ensures Decimal.ParseFixed(Values(PayParamList(p), "amount")[0]) == Some(Decimal.Normalize(p.amount.value))
    ensures Decimal.Normalize(p.amount.value).scale == Decimal.DecimalPlaces(p.amount.value)
  {
    PayParamValues(p, "amount");
    Decimal.ParseFixedText(p.amount.value);
  }

  /** The mint encoder emits candy machine, config and treasury first, all
      under `spl-token`, then the common tail in the pay encoder's order. */
  lemma MintParamsOrdered(m: MintParams)
    ensures Ordered(MintParamList(m))
  {
    var c := KeyParam("spl-token", m.candymachineId) + KeyParam("spl-token", m.config)
      + KeyParam("spl-token", m.treasury);
    var t := TailParams(m.reference, m.labelText, m.message, m.memo);
    TailOrdered(m.reference, m.labelText, m.message, m.memo);
    assert AllUnder(c, "spl-token");
    assert forall i, j :: 0 <= i < |c| && 0 <= j < |t| ==> Rank(c[i].key) <= Rank(t[j].key);
  }

  /** The values of three `spl-token` lists followed by a tail that has no
      `spl-token` entry. */
  lemma ValuesOfMint(c1: seq<Param>, c2: seq<Param>, c3: seq<Param>, t: seq<Param>, key: string,
                     K1: seq<string>, K2: seq<string>, K3: seq<string>, tail: seq<string>)
    requires Values(c1, key) == (if key == "spl-token" then K1 else [])
    requires Values(c2, key) == (if key == "spl-token" then K2 else [])
    requires Values(c3, key) == (if key == "spl-token" then K3 else [])
    requires Values(t, key) == tail && (key == "spl-token" ==> tail == [])
    ensures Values(c1 + c2 + c3 + t, key) == if key == "spl-token" then K1 + K2 + K3 else tail
  {
    ValuesOfFour(c1, c2, c3, t, key);
    if key == "spl-token" {
      assert K1 + K2 + K3 + [] == K1 + K2 + K3;
    } else {
      assert [] + [] + [] + tail == tail;
    }
  }

  /** What the mint encoder emits under each key: the candy machine, config
      and treasury that are present, in that order, all under `spl-token`;
      never an `amount`; and the tail under the same rules as the pay
      encoder. */
  lemma MintParamValues(m: MintParams, key: string)
    ensures Values(MintParamList(m), key)
         == if key == "spl-token" then OptionalKey(m.candymachineId) + OptionalKey(m.config) + OptionalKey(m.treasury)
            else if key == "reference" then Texts(ReferenceList(m.reference))
            else if key == "label" then OptionalText(m.labelText)
            else if key == "message" then OptionalText(m.message)
            else if key == "memo" then OptionalText(m.memo)
            else []
  {
    var c1, c2, c3 := KeyParam("spl-token", m.candymachineId), KeyParam("spl-token", m.config),
      KeyParam("spl-token", m.treasury);
    var t := TailParams(m.reference, m.labelText, m.message, m.memo);
    SingleValues(c1, key, "spl-token");
    SingleValues(c2, key, "spl-token");
    SingleValues(c3, key, "spl-token");
    TailValues(m.reference, m.labelText, m.message, m.memo, key);
    assert "spl-token"[0] == 's' && "reference"[0] == 'r';
    assert |"spl-token"| == 9 && |"label"| == 5 && |"message"| == 7 && |"memo"| == 4;
    ValuesOfMint(c1, c2, c3, t, key, OptionalKey(m.candymachineId), OptionalKey(m.config), OptionalKey(m.treasury),
                 Values(t, key));
  }

  /** Given the same references, label, message and memo, the two encoders
      emit the same entries under those keys. */
  lemma MintTailMatchesPay(m: MintParams, p: PayParams, key: string)
    requires m.reference == p.reference && m.labelText == p.labelText
    requires m.message == p.message && m.memo == p.memo
    requires key != "amount" && key != "spl-token"
    ensures Values(MintParamList(m), key) == Values(PayParamList(p), key)
  {
    MintParamValues(m, key);
    PayParamValues(p, key);
  }

  lemma TailEmpty(reference: Reference, labelText: Option<string>, message: Option<string>, memo: Option<string>)
    ensures TailParams(reference, labelText, message, memo) == []
        <==> ReferenceList(reference) == [] && !Truthy(labelText) && !Truthy(message) && !Truthy(memo)
  {
  }

  /** A pay URL carries `?` exactly when some optional field is emitted; with
      no fields, or only empty texts and an empty reference list, it is the
      protocol and the encoded recipient alone. */
  lemma PayUrlQuery(recipient: Key, p: PayParams)
    ensures '?' in UrlOf(recipient, PayParamList(p))
        <==> p.amount.Some? || p.splToken.Some? || ReferenceList(p.reference) != []
             || Truthy(p.labelText) || Truthy(p.message) || Truthy(p.memo)
  {
    QuestionMarkIffParams(recipient, PayParamList(p));
    TailEmpty(p.reference, p.labelText, p.message, p.memo);
  }

  lemma MintUrlQuery(recipient: Key, m: MintParams)
    ensures '?' in UrlOf(recipient, MintParamList(m))
        <==> m.candymachineId.Some? || m.config.Some? || m.treasury.Some? || ReferenceList(m.reference) != []
             || Truthy(m.labelText) || Truthy(m.message) || Truthy(m.memo)
  {
    QuestionMarkIffParams(recipient, MintParamList(m));
    TailEmpty(m.reference, m.labelText, m.message, m.memo);
  }

  predicate AllPlain(ps: seq<Param>) {
    forall i :: 0 <= i < |ps| ==> PlainKey(ps[i].key)
  }

  lemma AllPlainAppend(a: seq<Param>, b: seq<Param>)
    requires AllPlain(a) && AllPlain(b)
    ensures AllPlain(a + b)
  {
    forall i | 0 <= i < |a + b|
      ensures PlainKey((a + b)[i].key)
    {
      if i < |a| {
        assert (a + b)[i] == a[i];
      } else {
        assert (a + b)[i] == b[i - |a|];
      }
    }
  }

  lemma TailPlain(reference: Reference, labelText: Option<string>, message: Option<string>, memo: Option<string>)
    ensures AllPlain(TailParams(reference, labelText, message, memo))
  {
    var r := ReferenceParams(ReferenceList(reference));
    var l, g, o := TextParam("label", labelText), TextParam("message", message), TextParam("memo", memo);
    assert PlainKey("reference") && PlainKey("label") && PlainKey("message") && PlainKey("memo");
    AllPlainAppend(r, l);
    AllPlainAppend(r + l, g);
    AllPlainAppend(r + l + g, o);
  }

  /** Reading a pay URL gives back the recipient and exactly the entries the
      encoder collected. */
  lemma PayUrlRoundTrip(recipient: Key, p: PayParams)
    ensures ParseUrl(UrlOf(recipient, PayParamList(p))) == Some((recipient.base58, PayParamList(p)))
  {
    var a: seq<Param> := if p.amount.Some? then [Param("amount", Decimal.FixedText(p.amount.value))] else [];
    var k := KeyParam("spl-token", p.splToken);
    assert PlainKey("amount") && PlainKey("spl-token");
    TailPlain(p.reference, p.labelText, p.message, p.memo);
    AllPlainAppend(a, k);
    AllPlainAppend(a + k, TailParams(p.reference, p.labelText, p.message, p.memo));
    UrlRoundTrip(recipient, PayParamList(p));
  }

  /** Reading a mint URL gives back the recipient and the collected entries. */
  lemma MintUrlRoundTrip(recipient: Key, m: MintParams)
    ensures ParseUrl(UrlOf(recipient, MintParamList(m))) == Some((recipient.base58, MintParamList(m)))
  {
    var c1, c2, c3 := KeyParam("spl-token", m.candymachineId), KeyParam("spl-token", m.config),
      KeyParam("spl-token", m.treasury);
    assert PlainKey("spl-token");
    TailPlain(m.reference, m.labelText, m.message, m.memo);
    AllPlainAppend(c1, c2);
    AllPlainAppend(c1 + c2, c3);
    AllPlainAppend(c1 + c2 + c3, TailParams(m.reference, m.labelText, m.message, m.memo));
    UrlRoundTrip(recipient, MintParamList(m));
  }
}
