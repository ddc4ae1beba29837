/** The BitPay client object: its option map, the invoice payload it builds
    and the check it applies to payment notifications. */
module BitPay {
  import opened PhpJson

  /** The keys `createInvoice` forwards to the gateway, in the order it
      forwards them. */
  const AllowList: seq<string> := [
    "orderID", "itemDesc", "itemCode", "notificationEmail", "notificationURL",
    "redirectURL", "posData", "price", "currency", "physical",
    "fullNotifications", "transactionSpeed", "buyerName", "buyerAddress1",
    "buyerAddress2", "buyerCity", "buyerState", "buyerZip", "buyerEmail",
    "buyerPhone"]

  /** No key is on the allow-list twice. */
  lemma AllowListDistinct()
    ensures forall i, j :: 0 <= i < j < |AllowList| ==> AllowList[i] != AllowList[j]
  {
  }

  /** The option values every client starts from. */
  const DefaultOptions: map<string, Json> := map[
    "verifyPos" := JBool(true),
    "notificationEmail" := JString(""),
    "notificationURL" := JString(""),
    "redirectURL" := JString(""),
    "currency" := JString("BTC"),
    "physical" := JString("true"),
    "fullNotifications" := JString("true"),
    "transactionSpeed" := JString("low")]

  /** The strings `verifyNotification` returns to report a failure. */
  const NoPosDataText: string := "no posData"
  const BadHashText: string := "authentication failed (bad hash)"

  /** `array_merge($base, $over)` on string keys: every key of either map,
      the value from `over` wherever it has one. */
  function Merge(base: map<string, Json>, over: map<string, Json>): (r: map<string, Json>)
    ensures r.Keys == base.Keys + over.Keys
    ensures forall k :: k in over ==> r[k] == over[k]
    ensures forall k :: k in base && k !in over ==> r[k] == base[k]
  {
    base + over
  }

  /** The integrity tag of order metadata: the encrypter applied to its
      serialized form. */
  function Tag(php: Runtime, encrypt: string -> string, metadata: Json): string
  {
    encrypt(php.serialize(metadata))
  }

  /** The `posData` envelope: the metadata, and its tag when verification is on. */
  function Envelope(php: Runtime, encrypt: string -> string, metadata: Json, verify: bool): (r: map<string, Json>)
    ensures "posData" in r && r["posData"] == metadata
    ensures "hash" in r <==> verify
    ensures verify ==> r["hash"] == JString(Tag(php, encrypt, metadata))
    ensures r.Keys <= {"posData", "hash"}
  {
    if verify then map["posData" := metadata, "hash" := JString(Tag(php, encrypt, metadata))]
    else map["posData" := metadata]
  }

  /** The entries of `m` whose keys occur in `ks`, in the order of `ks`. */
  function Select(ks: seq<string>, m: map<string, Json>): (r: seq<(string, Json)>)
    ensures |r| <= |ks|
  {
    if ks == [] then []
    else (if ks[0] in m then [(ks[0], m[ks[0]])] else []) + Select(ks[1..], m)
  }

  /** Selecting over one more key appends that key's entry, if any. */
  lemma {:induction false} SelectSnoc(ks: seq<string>, k: string, m: map<string, Json>)
    ensures Select(ks + [k], m) == Select(ks, m) + (if k in m then [(k, m[k])] else [])
  {
    var s := ks + [k];
    if ks == [] {
      assert s == [k] && s[1..] == [];
    } else {
      assert s[0] == ks[0] && s[1..] == ks[1..] + [k];
      SelectSnoc(ks[1..], k, m);
      var head := if ks[0] in m then [(ks[0], m[ks[0]])] else [];
      assert Select(s, m) == head + Select(ks[1..] + [k], m);
      assert Select(ks, m) == head + Select(ks[1..], m);
    }
  }

  /** An entry is selected exactly when its key is listed and present,
      and it carries the map's value. */
  lemma {:induction false} SelectMembers(ks: seq<string>, m: map<string, Json>, k: string, v: Json)
    ensures (k, v) in Select(ks, m) <==> k in ks && k in m && v == m[k]
  {
    if ks != [] {
      SelectMembers(ks[1..], m, k, v);
      assert k in ks <==> k == ks[0] || k in ks[1..];
    }
  }

  /** The positions in `ks` whose keys `Select` keeps, in increasing order. */
  function KeptPositions(ks: seq<string>, m: map<string, Json>): seq<nat>
  {
    if ks == [] then []
    else KeptPositions(ks[..|ks| - 1], m) + (if ks[|ks| - 1] in m then [|ks| - 1] else [])
  }

  /** Kept positions lie inside `ks`, hold present keys and increase. */
  lemma {:induction false} KeptPositionsIncrease(ks: seq<string>, m: map<string, Json>)
    ensures forall i :: 0 <= i < |KeptPositions(ks, m)| ==>
      KeptPositions(ks, m)[i] < |ks| && ks[KeptPositions(ks, m)[i]] in m
    ensures forall i, j :: 0 <= i < j < |KeptPositions(ks, m)| ==>
      KeptPositions(ks, m)[i] < KeptPositions(ks, m)[j]
  {
    if ks != [] {
      var n := |ks| - 1;
      var init := ks[..n];
      KeptPositionsIncrease(init, m);
      var pos0, pos := KeptPositions(init, m), KeptPositions(ks, m);
      assert pos == pos0 + (if ks[n] in m then [n] else []);
      assert forall i :: 0 <= i < |pos0| ==> pos0[i] < n && init[pos0[i]] in m;
      forall i | 0 <= i < |pos0| ensures pos[i] == pos0[i] && ks[pos0[i]] == init[pos0[i]] {
      }
    }
  }

  /** No position of a present key is skipped. */
  lemma {:induction false} KeptPositionsComplete(ks: seq<string>, m: map<string, Json>, p: nat)
    requires p < |ks| && ks[p] in m
    ensures p in KeptPositions(ks, m)
  {
    var init := ks[..|ks| - 1];
    if p < |init| {
      assert init[p] == ks[p];
      KeptPositionsComplete(init, m, p);
    }
  }

  /** Entry `i` of the selection is the entry of `m` for the key at kept
      position `i`. */
  lemma {:induction false} SelectAtKeptPositions(ks: seq<string>, m: map<string, Json>)
    ensures var r, pos := Select(ks, m), KeptPositions(ks, m);
      && |pos| == |r|
      && forall i :: 0 <= i < |pos| ==>
           pos[i] < |ks| && ks[pos[i]] in m && r[i] == (ks[pos[i]], m[ks[pos[i]]])
  {
    KeptPositionsIncrease(ks, m);
    if ks != [] {
      var init, last := ks[..|ks| - 1], ks[|ks| - 1];
      assert ks == init + [last];
      SelectSnoc(init, last, m);
      SelectAtKeptPositions(init, m);
      var r0, pos0 := Select(init, m), KeptPositions(init, m);
      forall i | 0 <= i < |pos0| ensures ks[pos0[i]] == init[pos0[i]] {
      }
    }
  }

  /** Over a key list without repeats, no key is selected twice, as in the
      PHP array the loop fills. */
  lemma SelectKeysDistinct(ks: seq<string>, m: map<string, Json>)
    requires forall i, j :: 0 <= i < j < |ks| ==> ks[i] != ks[j]
    ensures forall i, j :: 0 <= i < j < |Select(ks, m)| ==> Select(ks, m)[i].0 != Select(ks, m)[j].0
  {
    SelectAtKeptPositions(ks, m);
    KeptPositionsIncrease(ks, m);
  }

  /** How `verifyNotification` ends. PHP returns the first three as plain
      strings; `Unhandled` covers decoded values the code does not expect. */
  datatype Outcome =
    | Echoed(text: string)                 // the body decoded to a JSON string
    | NoPosData                            // "no posData"
    | BadHash                              // "authentication failed (bad hash)"
    | Trusted(invoice: map<string, Json>)  // the notification, posData unwrapped
    | Unhandled                            // the body decoded to null, a boolean or a number,
                                           // or its posData member is a list or a mapping

  /** How the envelope's hash is compared with the tag: `Loose` is PHP's `!=`
      as the code writes it, `Strict` the exact comparison it needs. */
  datatype HashComparison = Loose | Strict

  /** Whether the comparison rejects hash `h` against `tag`. */
  function HashDiffers(cmp: HashComparison, h: Json, tag: string): (r: bool)
    ensures h == JString(tag) ==> !r
    ensures cmp.Strict? && !r ==> h == JString(tag)
  {
    match cmp
    case Loose => !LooseEqualsString(h, tag)
    case Strict => h != JString(tag)
  }

  /** The envelope decoded from the notification's `posData` member. A
      scalar member is turned into text by PHP and decodes to a scalar (or
      null), and every key of a scalar reads as null, so it is taken as null. */
  function DecodedEnvelope(php: Runtime, member: Json): Json
  {
    if member.JString? then php.jsonDecode(member.s) else JNull
  }

  /** The string PHP returns for an outcome that is reported as a string. */
  function ReturnedText(o: Outcome): string
    requires o.Echoed? || o.NoPosData? || o.BadHash?
  {
    match o
    case Echoed(text) => text
    case NoPosData => NoPosDataText
    case BadHash => BadHashText
  }

  class BitPay {
    /** The injected encrypter's `encrypt`. */
    const encrypt: string -> string
    var apiKey: string
    var options: map<string, Json>

    constructor(encrypt: string -> string, key: string, options: map<string, Json>)
      ensures this.encrypt == encrypt && apiKey == key
      ensures this.options == Merge(DefaultOptions, options)
    {
      this.encrypt := encrypt;
      apiKey := key;
      this.options := Merge(DefaultOptions, options);
    }

    /** Merges `o` over the current options, last write winning. */
    method SetOptions(o: map<string, Json>)
      modifies this`options
      ensures options.Keys == old(options).Keys + o.Keys
      ensures forall k :: k in o ==> options[k] == o[k]
      ensures forall k :: k in old(options) && k !in o ==> options[k] == old(options)[k]
    {
      options := Merge(options, o);
    }

    /** Sets one option and leaves every other one alone. */
    method SetOption(name: string, value: Json)
      modifies this`options
      ensures options.Keys == old(options).Keys + {name}
      ensures options[name] == value
      ensures forall k :: k in old(options) && k != name ==> options[k] == old(options)[k]
    {
      options := options[name := value];
    }

    /** The per-call options merged over the instance options, with
        `posData`, `orderID` and `price` forced. */
    function InvoiceFields(php: Runtime, orderId: Json, price: Json, metadata: Json,
                           callOptions: map<string, Json>): (r: map<string, Json>)
      reads this
      ensures var merged := Merge(options, callOptions);
        && r.Keys == merged.Keys + {"posData", "orderID", "price"}
        && r["orderID"] == orderId && r["price"] == price
        && r["posData"] == JString(php.jsonEncode(JObject(
             Envelope(php, encrypt, metadata, Truthy(Lookup(merged, "verifyPos"))))))
        && forall k :: k in merged && k !in {"posData", "orderID", "price"} ==> r[k] == merged[k]
    {
      var merged := Merge(options, callOptions);
      var pos := Envelope(php, encrypt, metadata, Truthy(Lookup(merged, "verifyPos")));
      merged["posData" := JString(php.jsonEncode(JObject(pos)))]["orderID" := orderId]["price" := price]
    }

    /** Builds the invoice payload handed to the transport: the allow-listed
        entries of the merged options, in allow-list order. Instance options
        are only read. */
    method CreateInvoice(php: Runtime, orderId: Json, price: Json, metadata: Json,
                         callOptions: map<string, Json>) returns (post: seq<(string, Json)>)
      ensures post == Select(AllowList, InvoiceFields(php, orderId, price, metadata, callOptions))
    {
      var merged := Merge(options, callOptions);
      var pos := map["posData" := metadata];
      if Truthy(Lookup(merged, "verifyPos")) {
        pos := pos["hash" := JString(encrypt(php.serialize(metadata)))];
      }
      merged := merged["posData" := JString(php.jsonEncode(JObject(pos)))];
      merged := merged["orderID" := orderId];
      merged := merged["price" := price];

      post := [];
      var i := 0;
      while i < |AllowList|
        invariant 0 <= i <= |AllowList|
        invariant post == Select(AllowList[..i], merged)
      {
        var o := AllowList[i];
        assert AllowList[..i + 1] == AllowList[..i] + [o];
        SelectSnoc(AllowList[..i], o, merged);
        if o in merged {
          post := post + [(o, merged[o])];
        }
        i := i + 1;
      }
      assert AllowList[..i] == AllowList;
    }

    /** Turns a notification body into trusted invoice data: a decoded
        string is handed back, a mapping must carry `posData`, and when the
        instance's `verifyPos` is on the envelope's hash must match the tag
        of the metadata inside it under comparison `cmp`. A trusted result
        is the decoded mapping with only `posData` replaced by the metadata. */
    function VerifyNotification(php: Runtime, postData: string, cmp: HashComparison): (r: Outcome)
      reads this
      ensures var json := php.jsonDecode(postData);
        r.Trusted? ==>
          && json.JObject? && "posData" in json.fields
          && r.invoice.Keys == json.fields.Keys
          && r.invoice["posData"] == Index(DecodedEnvelope(php, json.fields["posData"]), "posData")
          && forall k :: k in json.fields && k != "posData" ==> r.invoice[k] == json.fields[k]
    {
      var json := php.jsonDecode(postData);
      if json.JString? then Echoed(json.s)
      else if json.JArray? then NoPosData
      else if !json.JObject? then Unhandled
      else if "posData" !in json.fields then NoPosData
      else if json.fields["posData"].JArray? || json.fields["posData"].JObject? then Unhandled
      else
        var pos := DecodedEnvelope(php, json.fields["posData"]);
        var metadata := Index(pos, "posData");
        if Truthy(Lookup(options, "verifyPos")) && HashDiffers(cmp, Index(pos, "hash"), Tag(php, encrypt, metadata))
        then BadHash
        else Trusted(json.fields["posData" := metadata])
    }
  }
}
