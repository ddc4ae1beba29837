/** What the invoice payload and the notification check promise, stated over
    one client object. */
module BitPayProperties {
  import opened PhpJson
  import opened BitPay

  /** The three keys `createInvoice` forces are on the allow-list. */
  lemma ForcedKeysListed()
    ensures "orderID" in AllowList && "price" in AllowList && "posData" in AllowList
  {
  }

  /** Keys a caller may pass that the allow-list leaves out. */
  lemma UnlistedKey(k: string)
    requires k in {"foo", "apiKey", "verifyPos"}
    ensures k !in AllowList
  {
  }

  /** The options `createInvoice` works from: the per-call options merged
      over the instance's. */
  function CallOptions(b: BitPay, callOptions: map<string, Json>): map<string, Json>
    reads b
  {
    Merge(b.options, callOptions)
  }

  /** The payload carries exactly one `orderID` and one `price`, the ones
      given, whatever the options say, and exactly one `posData`, the JSON
      text of the envelope. */
  lemma PayloadForcedFields(b: BitPay, php: Runtime, orderId: Json, price: Json, metadata: Json,
                            callOptions: map<string, Json>)
    ensures var post := Select(AllowList, b.InvoiceFields(php, orderId, price, metadata, callOptions));
      var envelope := Envelope(php, b.encrypt, metadata, Truthy(Lookup(CallOptions(b, callOptions), "verifyPos")));
      && (forall v :: ("orderID", v) in post <==> v == orderId)
      && (forall v :: ("price", v) in post <==> v == price)
      && (forall v :: ("posData", v) in post <==> v == JString(php.jsonEncode(JObject(envelope))))
  {
    var fields := b.InvoiceFields(php, orderId, price, metadata, callOptions);
    ForcedKeysListed();
    forall v ensures ("orderID", v) in Select(AllowList, fields) <==> v == orderId {
      SelectMembers(AllowList, fields, "orderID", v);
    }
    forall v ensures ("price", v) in Select(AllowList, fields) <==> v == price {
      SelectMembers(AllowList, fields, "price", v);
    }
    forall v ensures ("posData", v) in Select(AllowList, fields) <==> v == fields["posData"] {
      SelectMembers(AllowList, fields, "posData", v);
    }
  }

  /** No key appears twice in the payload. */
  lemma PayloadKeysDistinct(b: BitPay, php: Runtime, orderId: Json, price: Json, metadata: Json,
                            callOptions: map<string, Json>)
    ensures var post := Select(AllowList, b.InvoiceFields(php, orderId, price, metadata, callOptions));
      forall i, j :: 0 <= i < j < |post| ==> post[i].0 != post[j].0
  {
    AllowListDistinct();
    SelectKeysDistinct(AllowList, b.InvoiceFields(php, orderId, price, metadata, callOptions));
  }

  /** Apart from the three forced keys, an entry is in the payload exactly
      when its key is allow-listed and present in the merged options, with
      the merged value. */
  lemma PayloadMergedFields(b: BitPay, php: Runtime, orderId: Json, price: Json, metadata: Json,
                            callOptions: map<string, Json>, k: string, v: Json)
    requires k != "orderID" && k != "price" && k != "posData"
    ensures var merged := CallOptions(b, callOptions);
      (k, v) in Select(AllowList, b.InvoiceFields(php, orderId, price, metadata, callOptions)) <==>
        k in AllowList && k in merged && v == merged[k]
  {
    SelectMembers(AllowList, b.InvoiceFields(php, orderId, price, metadata, callOptions), k, v);
  }

  /** Keys outside the allow-list, such as an unknown `foo`, the `apiKey`
      the documentation lists, or `verifyPos`, never reach the payload. */
  lemma PayloadExcludesUnlisted(b: BitPay, php: Runtime, orderId: Json, price: Json, metadata: Json,
                                callOptions: map<string, Json>, k: string, v: Json)
    requires k in {"foo", "apiKey", "verifyPos"}
    ensures (k, v) !in Select(AllowList, b.InvoiceFields(php, orderId, price, metadata, callOptions))
  {
    UnlistedKey(k);
    SelectMembers(AllowList, b.InvoiceFields(php, orderId, price, metadata, callOptions), k, v);
  }

  /** The payload's entries come in allow-list order: entry `i` sits at
      allow-list position `pos[i]`, and the positions increase. */
  lemma PayloadInAllowListOrder(b: BitPay, php: Runtime, orderId: Json, price: Json, metadata: Json,
                                callOptions: map<string, Json>)
    ensures var post := Select(AllowList, b.InvoiceFields(php, orderId, price, metadata, callOptions));
      var pos := KeptPositions(AllowList, b.InvoiceFields(php, orderId, price, metadata, callOptions));
      && |pos| == |post|
      && (forall i :: 0 <= i < |pos| ==> pos[i] < |AllowList| && post[i].0 == AllowList[pos[i]])
      && (forall i, j :: 0 <= i < j < |pos| ==> pos[i] < pos[j])
      && (forall p :: (0 <= p < |AllowList| &&
            AllowList[p] in b.InvoiceFields(php, orderId, price, metadata, callOptions)) ==> p in pos)
  {
    var fields := b.InvoiceFields(php, orderId, price, metadata, callOptions);
    SelectAtKeptPositions(AllowList, fields);
    KeptPositionsIncrease(AllowList, fields);
    forall p | 0 <= p < |AllowList| && AllowList[p] in fields ensures p in KeptPositions(AllowList, fields) {
      KeptPositionsComplete(AllowList, fields, p);
    }
  }

  /** A body that decodes to a string is handed back unchanged, and only
      such a body is. */
  lemma DecodedStringReturnedAsIs(b: BitPay, php: Runtime, postData: string, cmp: HashComparison)
    ensures var r := b.VerifyNotification(php, postData, cmp);
      r.Echoed? <==> php.jsonDecode(postData).JString?
    ensures var r := b.VerifyNotification(php, postData, cmp);
      r.Echoed? ==> r.text == php.jsonDecode(postData).s
  {
  }

  /** Once the body is not a string, a decoded array without a `posData` key
      is rejected before any hash is looked at. */
  lemma MissingPosDataRejected(b: BitPay, php: Runtime, postData: string, cmp: HashComparison)
    ensures var json := php.jsonDecode(postData);
      b.VerifyNotification(php, postData, cmp) == NoPosData <==>
        json.JArray? || (json.JObject? && "posData" !in json.fields)
  {
  }

  /** The hash is consulted only for a decoded mapping whose `posData` is a
      string or a scalar; it fails exactly when the instance's `verifyPos` is
      on and the comparison rejects the envelope's hash against the tag of
      the envelope's metadata. */
  lemma BadHashExactly(b: BitPay, php: Runtime, postData: string, cmp: HashComparison)
    ensures var json := php.jsonDecode(postData);
      b.VerifyNotification(php, postData, cmp) == BadHash <==>
        && json.JObject? && "posData" in json.fields
        && !json.fields["posData"].JArray? && !json.fields["posData"].JObject?
        && var pos := DecodedEnvelope(php, json.fields["posData"]);
           && Truthy(Lookup(b.options, "verifyPos"))
           && HashDiffers(cmp, Index(pos, "hash"), Tag(php, b.encrypt, Index(pos, "posData")))
  {
  }

  /** With the instance's `verifyPos` off, no notification fails the hash. */
  lemma NoBadHashWithoutVerifyPos(b: BitPay, php: Runtime, postData: string, cmp: HashComparison)
    requires !Truthy(Lookup(b.options, "verifyPos"))
    ensures b.VerifyNotification(php, postData, cmp) != BadHash
  {
  }

  /** A notification carrying back the `posData` field of an invoice payload
      is trusted and yields the original metadata, provided the `verifyPos`
      the invoice was built with agrees with the instance's and JSON gives
      the notification and the envelope back. */
  lemma InvoiceNotificationRoundTrip(b: BitPay, php: Runtime, orderId: Json, price: Json, metadata: Json,
                                     callOptions: map<string, Json>, notification: map<string, Json>,
                                     cmp: HashComparison)
    requires Truthy(Lookup(CallOptions(b, callOptions), "verifyPos")) == Truthy(Lookup(b.options, "verifyPos"))
    requires RoundTrips(php, JObject(notification))
    requires RoundTrips(php, JObject(Envelope(php, b.encrypt, metadata, Truthy(Lookup(b.options, "verifyPos")))))
    requires "posData" in notification
    requires ("posData", notification["posData"]) in
      Select(AllowList, b.InvoiceFields(php, orderId, price, metadata, callOptions))
    ensures b.VerifyNotification(php, php.jsonEncode(JObject(notification)), cmp)
      == Trusted(notification["posData" := metadata])
  {
    var fields := b.InvoiceFields(php, orderId, price, metadata, callOptions);
    SelectMembers(AllowList, fields, "posData", notification["posData"]);
    var envelope := Envelope(php, b.encrypt, metadata, Truthy(Lookup(CallOptions(b, callOptions), "verifyPos")));
    assert notification["posData"] == JString(php.jsonEncode(JObject(envelope)));
  }

  /** When the instance verifies but the invoice was built with a per-call
      `verifyPos` that is off, the envelope has no hash and its own
      notification is rejected (under the loose comparison, when the tag is
      not empty). */
  lemma VerifyPosOverrideBreaksRoundTrip(b: BitPay, php: Runtime, orderId: Json, price: Json, metadata: Json,
                                         callOptions: map<string, Json>, notification: map<string, Json>,
                                         cmp: HashComparison)
    requires Truthy(Lookup(b.options, "verifyPos"))
    requires !Truthy(Lookup(CallOptions(b, callOptions), "verifyPos"))
    requires cmp.Strict? || Tag(php, b.encrypt, metadata) != ""
    requires RoundTrips(php, JObject(notification))
    requires RoundTrips(php, JObject(Envelope(php, b.encrypt, metadata, false)))
    requires "posData" in notification
    requires ("posData", notification["posData"]) in
      Select(AllowList, b.InvoiceFields(php, orderId, price, metadata, callOptions))
    ensures b.VerifyNotification(php, php.jsonEncode(JObject(notification)), cmp) == BadHash
  {
    var fields := b.InvoiceFields(php, orderId, price, metadata, callOptions);
    SelectMembers(AllowList, fields, "posData", notification["posData"]);
    var envelope := Envelope(php, b.encrypt, metadata, false);
    assert notification["posData"] == JString(php.jsonEncode(JObject(envelope)));
  }

  /** With verification on, an envelope whose metadata was swapped for one
      with a different tag, keeping the original hash, is rejected. */
  lemma TamperedMetadataRejected(b: BitPay, php: Runtime, original: Json, forged: Json,
                                 notification: map<string, Json>, cmp: HashComparison)
    requires Truthy(Lookup(b.options, "verifyPos"))
    requires Tag(php, b.encrypt, forged) != Tag(php, b.encrypt, original)
    requires RoundTrips(php, JObject(notification))
    requires RoundTrips(php, JObject(map["posData" := forged, "hash" := JString(Tag(php, b.encrypt, original))]))
    requires "posData" in notification
    requires notification["posData"] == JString(php.jsonEncode(JObject(
      map["posData" := forged, "hash" := JString(Tag(php, b.encrypt, original))])))
    ensures b.VerifyNotification(php, php.jsonEncode(JObject(notification)), cmp) == BadHash
  {
  }

  /** As written, the loose `!=` lets an envelope whose hash is JSON `true`
      through for any metadata whose tag is neither empty nor "0": forged
      metadata is trusted although verification is on. */
  lemma TrueHashBypassesCheck(b: BitPay, php: Runtime, forged: Json, notification: map<string, Json>)
    requires Truthy(Lookup(b.options, "verifyPos"))
    requires Truthy(JString(Tag(php, b.encrypt, forged)))
    requires RoundTrips(php, JObject(notification))
    requires RoundTrips(php, JObject(map["posData" := forged, "hash" := JBool(true)]))
    requires "posData" in notification
    requires notification["posData"] == JString(php.jsonEncode(JObject(map["posData" := forged, "hash" := JBool(true)])))
    ensures b.VerifyNotification(php, php.jsonEncode(JObject(notification)), Loose)
      == Trusted(notification["posData" := forged])
  {
  }

  /** With the exact comparison and verification on, trusted metadata always
      comes with the envelope hash that is its own tag. */
  lemma StrictTrustedIsAuthentic(b: BitPay, php: Runtime, postData: string)
    requires Truthy(Lookup(b.options, "verifyPos"))
    ensures var r := b.VerifyNotification(php, postData, Strict);
      var json := php.jsonDecode(postData);
      r.Trusted? ==>
        && json.JObject? && "posData" in json.fields
        && Index(DecodedEnvelope(php, json.fields["posData"]), "hash")
           == JString(Tag(php, b.encrypt, r.invoice["posData"]))
  {
  }

  /** Because failures are reported as strings, a body that decodes to the
      text of a failure message is returned as that same string. */
  lemma EchoedBodyMimicsFailure(b: BitPay, php: Runtime, postData: string, cmp: HashComparison)
    requires php.jsonDecode(postData) in {JString(NoPosDataText), JString(BadHashText)}
    ensures var r := b.VerifyNotification(php, postData, cmp);
      r.Echoed? && (ReturnedText(r) == ReturnedText(NoPosData) || ReturnedText(r) == ReturnedText(BadHash))
  {
  }
}
