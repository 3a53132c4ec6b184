/** What migration makes of the legacy connection sections and of numeric ids, read back by the decoder. */
module BotLegacy {
  import opened Common
  import opened JsonModel
  import opened BotConfigModel
  import opened BotCodec
  import opened BotMigration
  import opened BotMigrationTheorems

  // ---------------------------------------------------------------- legacy sections

  // What a legacy connection section becomes is an entry the decoder accepts, with the section's
  // own switch, address and URL and the current defaults for everything else.

  function LegacyBase(enable: bool, name: string): BaseFields {
    BaseFields(enable, name, ArrayFormat, "", false)
  }

  lemma PortInRange(v: Json, key: string, default: nat)
    requires 0 < default < 0x1_0000
    ensures 0 < PortValue(v, key, default) < 0x1_0000
  {
  }

  lemma LegacyHttpServerBase(http: Json)
    requires Meaningful(http)
    ensures DecodeBase(LegacyHttpServer(http)[0].fields) == Some(LegacyBase(BoolValue(http, "enable", false), "legacy-http-server"))
  {
    hide BoolValue, StrValue, PortValue, Meaningful;
  }

  lemma LegacyHttpServerReads(http: Json)
    requires Meaningful(http)
    ensures |LegacyHttpServer(http)| == 1
    ensures DecodeHttpServer(LegacyHttpServer(http)[0])
      == Some(HttpServer(LegacyBase(BoolValue(http, "enable", false), "legacy-http-server"), StrValue(http, "host", ""),
                         PortValue(http, "port", 3000), false, false, "/"))
  {
    hide BoolValue, StrValue, PortValue, Meaningful, DecodeBase;
    PortInRange(http, "port", 3000);
    LegacyHttpServerBase(http);
  }

  lemma LegacyWebsocketServerBase(ws: Json)
    requires Meaningful(ws)
    ensures DecodeBase(LegacyWebsocketServer(ws)[0].fields) == Some(LegacyBase(BoolValue(ws, "enable", false), "legacy-websocket-server"))
  {
    hide BoolValue, StrValue, PortValue, Meaningful;
  }

  lemma LegacyWebsocketServerReads(ws: Json)
    requires Meaningful(ws)
    ensures |LegacyWebsocketServer(ws)| == 1
    ensures DecodeWsServer(LegacyWebsocketServer(ws)[0])
      == Some(WsServer(LegacyBase(BoolValue(ws, "enable", false), "legacy-websocket-server"), StrValue(ws, "host", ""),
                       PortValue(ws, "port", 3001), false, false, 30000, "/", Universal))
  {
    hide BoolValue, StrValue, PortValue, Meaningful, DecodeBase;
    PortInRange(ws, "port", 3001);
    LegacyWebsocketServerBase(ws);
  }

  lemma LegacyHttpClientReads(http: Json, index: nat, url: string)
    ensures DecodeHttpClient(LegacyHttpClient(http, index, url))
      == Some(HttpClient(LegacyBase(BoolValue(http, "enablePost", true), "legacy-http-client-" + Decimal(index + 1)), url,
                         false, None))
  {
    hide BoolValue, Decimal;
  }

  lemma LegacyWebsocketClientReads(ws: Json, index: nat, url: string)
    ensures DecodeWsClient(LegacyWebsocketClient(ws, index, url))
      == Some(WsClient(LegacyBase(BoolValue(ws, "enable", false), "legacy-websocket-client-" + Decimal(index + 1)), url,
                       false, 30000, 30000, Universal))
  {
    hide BoolValue, Decimal;
  }

  /** A legacy section's port counts if it is a number of 16 bits that is not zero. */
  lemma PortIsRead(v: Json, key: string, default: nat)
    ensures PortValue(v, key, default)
      == match Get(v, key) case Some(Int(i)) => if 1 <= i <= 65535 then i else default case _ => default
  {
  }

  /** The fields of a converted entry, under the names the decoder knows. */
  lemma LegacyEntriesHave(v: Json, index: nat, url: string)
    ensures Meaningful(v) ==> KeysAre(LegacyHttpServer(v)[0], {"host", "port", "enableCors", "enableWebsocket"})
    ensures Meaningful(v) ==>
      KeysAre(LegacyWebsocketServer(v)[0], {"host", "port", "reportSelfMessage", "enableForcePushEvent", "heartInterval"})
    ensures KeysAre(LegacyHttpClient(v, index, url), {"url", "reportSelfMessage"})
    ensures KeysAre(LegacyWebsocketClient(v, index, url),
                    {"url", "reportSelfMessage", "heartInterval", "reconnectInterval"})
  {
    hide Meaningful, Decimal, BoolValue, StrValue, PortValue;
  }

  /** The keys of every entry and these. */
  predicate KeysAre(v: Json, own: set<string>) {
    v.Obj? && v.fields.Keys == {"enable", "name", "messagePostFormat", "token", "debug"} + own
  }

  /** A URL-list item that makes a client. */
  predicate NamesUrl(v: Json) {
    v.Str? && !Blank(v.s)
  }

  /** The places of those items, in order. */
  function Places(urls: seq<Json>): seq<nat> {
    if urls == [] then []
    else
      var n := |urls| - 1;
      Places(urls[..n]) + if NamesUrl(urls[n]) then [n] else []
  }

  lemma {:induction false} PlacesSpec(urls: seq<Json>)
    ensures forall i, j | 0 <= i < j < |Places(urls)| :: Places(urls)[i] < Places(urls)[j]
    ensures forall i: nat :: i in Places(urls) <==> i < |urls| && NamesUrl(urls[i])
  {
    if urls != [] {
      var n := |urls| - 1;
      PlacesSpec(urls[..n]);
      forall i: nat ensures i in Places(urls) <==> i < |urls| && NamesUrl(urls[i]) {
        assert i in Places(urls) <==> i in Places(urls[..n]) || (i == n && NamesUrl(urls[n]));
      }
      forall j | 0 <= j < |Places(urls[..n])| ensures Places(urls[..n])[j] < n {
        assert Places(urls[..n])[j] in Places(urls[..n]);
      }
    }
  }

  /** The clients made from a URL list: one for each place, in the order of the places. */
  lemma {:induction false} LegacyClientsInOrder(section: Json, urls: seq<Json>, client: (Json, nat, string) -> Json)
    ensures |ClientsFrom(section, urls, client)| == |Places(urls)|
    ensures forall j | 0 <= j < |Places(urls)| ::
      Places(urls)[j] < |urls| && urls[Places(urls)[j]].Str?
      && ClientsFrom(section, urls, client)[j] == client(section, Places(urls)[j], Trim(urls[Places(urls)[j]].s))
  {
    if urls != [] {
      LegacyClientsInOrder(section, urls[..|urls| - 1], client);
    }
  }

  lemma TrimmedIsNotBlank(s: string)
    requires !Blank(s)
    ensures !Blank(Trim(s))
  {
    TrimStartStops(s);
    TrimEndIsPrefix(TrimStart(s));
    TrimOfNonBlank(Trim(s));
  }

  /** A list of clients as the decoder sees it: the `j`-th is the one of the `j`-th place. */
  ghost predicate AtPlaces(urls: seq<Json>, bases: seq<(BaseFields, string)>, enable: bool, prefix: string) {
    && |bases| == |Places(urls)|
    && (forall j | 0 <= j < |bases| ::
          Places(urls)[j] < |urls| && urls[Places(urls)[j]].Str?
          && bases[j] == (LegacyBase(enable, prefix + Decimal(Places(urls)[j] + 1)), Trim(urls[Places(urls)[j]].s)))
    && (forall i, j | 0 <= i < j < |bases| :: bases[i].0.name != bases[j].0.name)
    && forall j | 0 <= j < |bases| :: !Blank(bases[j].1)
  }

  lemma NamesApart(prefix: string, i: nat, j: nat)
    requires i != j
    ensures prefix + Decimal(i + 1) != prefix + Decimal(j + 1)
  {
    hide Decimal;
    var a, b := Decimal(i + 1), Decimal(j + 1);
    assert (prefix + a)[|prefix|..] == a && (prefix + b)[|prefix|..] == b;
    if a == b {
      DecimalInjective(i + 1, j + 1);
    }
  }

  lemma PlacesName(urls: seq<Json>, bases: seq<(BaseFields, string)>, enable: bool, prefix: string)
    requires |bases| == |Places(urls)|
    requires forall j | 0 <= j < |bases| ::
      Places(urls)[j] < |urls| && urls[Places(urls)[j]].Str?
      && bases[j] == (LegacyBase(enable, prefix + Decimal(Places(urls)[j] + 1)), Trim(urls[Places(urls)[j]].s))
    ensures AtPlaces(urls, bases, enable, prefix)
  {
    hide Places, Decimal, Trim;
    PlacesSpec(urls);
    var places := Places(urls);
    forall i, j | 0 <= i < j < |bases| ensures bases[i].0.name != bases[j].0.name {
      NamesApart(prefix, places[i], places[j]);
    }
    forall j | 0 <= j < |bases| ensures !Blank(bases[j].1) {
      assert places[j] in places;
      TrimmedIsNotBlank(urls[places[j]].s);
    }
  }

  function HttpBases(cs: seq<HttpClient>): seq<(BaseFields, string)> {
    seq(|cs|, i requires 0 <= i < |cs| => (cs[i].base, cs[i].url))
  }

  function WsBases(cs: seq<WsClient>): seq<(BaseFields, string)> {
    seq(|cs|, i requires 0 <= i < |cs| => (cs[i].base, cs[i].url))
  }

  lemma {:induction false} DecodedItems<T>(read: Json -> Option<T>, xs: seq<Json>)
    requires forall i | 0 <= i < |xs| :: read(xs[i]).Some?
    ensures DecodeSeq(read, xs).Some? && |DecodeSeq(read, xs).value| == |xs|
    ensures forall i | 0 <= i < |xs| :: read(xs[i]) == Some(DecodeSeq(read, xs).value[i])
  {
    if xs != [] {
      DecodedItems(read, xs[1..]);
    }
  }

  /** The `postUrls` of a legacy section are read as clients: one per non-blank string, in order, with
      that URL, and no two of the same name. */
  lemma LegacyHttpClientsRead(http: Json)
    ensures var urls, r := UrlList(http, "postUrls"), DecodeSeq(DecodeHttpClient, LegacyHttpClients(http));
      r.Some? && AtPlaces(urls, HttpBases(r.value), BoolValue(http, "enablePost", true), "legacy-http-client-")
  {
    hide BoolValue, UrlList, DecodeHttpClient, LegacyHttpClient, AtPlaces, Places, ClientsFrom, DecodeSeq, Decimal;
    var urls, items := UrlList(http, "postUrls"), LegacyHttpClients(http);
    LegacyClientsInOrder(http, urls, LegacyHttpClient);
    forall j | 0 <= j < |items|
      ensures DecodeHttpClient(items[j])
        == Some(HttpClient(LegacyBase(BoolValue(http, "enablePost", true),
                                      "legacy-http-client-" + Decimal(Places(urls)[j] + 1)),
                           Trim(urls[Places(urls)[j]].s), false, None))
    {
      LegacyHttpClientReads(http, Places(urls)[j], Trim(urls[Places(urls)[j]].s));
    }
    DecodedItems(DecodeHttpClient, items);
    var cs := DecodeSeq(DecodeHttpClient, items).value;
    forall j | 0 <= j < |items|
      ensures HttpBases(cs)[j] == (LegacyBase(BoolValue(http, "enablePost", true),
                                              "legacy-http-client-" + Decimal(Places(urls)[j] + 1)),
                                   Trim(urls[Places(urls)[j]].s))
    {
      assert DecodeHttpClient(items[j]) == Some(cs[j]);
    }
    PlacesName(urls, HttpBases(cs), BoolValue(http, "enablePost", true), "legacy-http-client-");
  }

  /** The same of the `urls` of a reverse websocket section. */
  lemma LegacyWebsocketClientsRead(ws: Json)
    ensures var urls, r := UrlList(ws, "urls"), DecodeSeq(DecodeWsClient, LegacyWebsocketClients(ws));
      r.Some? && AtPlaces(urls, WsBases(r.value), BoolValue(ws, "enable", false), "legacy-websocket-client-")
  {
    hide BoolValue, UrlList, DecodeWsClient, LegacyWebsocketClient, AtPlaces, Places, ClientsFrom, DecodeSeq, Decimal;
    var urls, items := UrlList(ws, "urls"), LegacyWebsocketClients(ws);
    LegacyClientsInOrder(ws, urls, LegacyWebsocketClient);
    forall j | 0 <= j < |items|
      ensures DecodeWsClient(items[j])
        == Some(WsClient(LegacyBase(BoolValue(ws, "enable", false),
                                    "legacy-websocket-client-" + Decimal(Places(urls)[j] + 1)),
                         Trim(urls[Places(urls)[j]].s), false, 30000, 30000, Universal))
    {
      LegacyWebsocketClientReads(ws, Places(urls)[j], Trim(urls[Places(urls)[j]].s));
    }
    DecodedItems(DecodeWsClient, items);
    var cs := DecodeSeq(DecodeWsClient, items).value;
    forall j | 0 <= j < |items|
      ensures WsBases(cs)[j] == (LegacyBase(BoolValue(ws, "enable", false),
                                            "legacy-websocket-client-" + Decimal(Places(urls)[j] + 1)),
                                 Trim(urls[Places(urls)[j]].s))
    {
      assert DecodeWsClient(items[j]) == Some(cs[j]);
    }
    PlacesName(urls, WsBases(cs), BoolValue(ws, "enable", false), "legacy-websocket-client-");
  }

  // ---------------------------------------------------------------- numeric ids

  lemma {:induction false} DigitsOfDecimal(n: nat)
    ensures DigitsValue(Decimal(n)) == n
  {
    var s := Decimal(n);
    if n < 10 {
      assert s[..0] == "" && DigitsValue("") == 0;
    } else {
      DigitsOfDecimal(n / 10);
      assert s[..|s| - 1] == Decimal(n / 10) && s[|s| - 1] == DigitChar(n % 10);
    }
  }

  function Zeros(z: nat): (s: string)
    ensures |s| == z && forall i | 0 <= i < z :: s[i] == '0'
  {
    seq(z, i => '0')
  }

  /** A number with leading zeros. */
  function Padded(z: nat, n: nat): (s: string)
    ensures |s| > z && forall i | 0 <= i < |s| :: IsDigit(s[i])
  {
    Zeros(z) + Decimal(n)
  }

  /** The ways to write a number that `str::parse` understands. */
  ghost predicate Spells(t: string, n: nat) {
    exists z: nat :: t == Padded(z, n) || t == "+" + Padded(z, n)
  }

  lemma {:induction false} ZerosAddNothing(z: nat, s: string)
    ensures DigitsValue(Zeros(z) + s) == DigitsValue(s)
    decreases z + |s|
  {
    var t := Zeros(z) + s;
    if s != "" {
      assert t[..|t| - 1] == Zeros(z) + s[..|s| - 1] && t[|t| - 1] == s[|s| - 1];
      ZerosAddNothing(z, s[..|s| - 1]);
    } else if z > 0 {
      assert t[..|t| - 1] == Zeros(z - 1) + "" && t[|t| - 1] == '0';
      ZerosAddNothing(z - 1, "");
    }
  }

  /** Any string of digits is the decimal of its value after some zeros. */
  lemma {:induction false} DigitsArePadded(d: string) returns (z: nat)
    requires d != "" && AllDigits(d)
    ensures d == Padded(z, DigitsValue(d))
    decreases |d|
  {
    var e, c := d[..|d| - 1], d[|d| - 1];
    var v := c as int - '0' as int;
    assert DigitChar(v) == c;
    if e == "" {
      z := 0;
      assert DigitsValue(d) == v && Decimal(v) == [c] == d && Zeros(0) == "";
    } else {
      z := DigitsArePadded(e);
      if DigitsValue(e) == 0 {
        assert e == Zeros(z + 1) && d == Zeros(z + 1) + Decimal(v);
        z := z + 1;
      } else {
        assert d == Zeros(z) + (Decimal(DigitsValue(e)) + [c]);
      }
    }
  }

  /** What is read as a 64-bit number: exactly the decimals of such a number, with any leading zeros
      and perhaps a plus sign. */
  lemma ParsedIffSpelled(t: string, n: nat)
    ensures ParseU64(t) == Some(n) <==> n < 0x1_0000_0000_0000_0000 && Spells(t, n)
  {
    hide Padded, DigitsValue;
    if ParseU64(t) == Some(n) {
      var plus := t[0] == '+';
      var digits := if plus then t[1..] else t;
      assert AllDigits(digits);
      var z := DigitsArePadded(digits);
      assert t == if plus then "+" + Padded(z, n) else Padded(z, n);
    }
    if z: nat :| t == Padded(z, n) || t == "+" + Padded(z, n) {
      PaddedValue(z, n);
      var s := Padded(z, n);
      assert IsDigit(s[0]) && ("+" + s)[1..] == s;
    }
  }

  lemma PaddedValue(z: nat, n: nat)
    ensures DigitsValue(Padded(z, n)) == n
  {
    ZerosAddNothing(z, Decimal(n));
    DigitsOfDecimal(n);
  }

  /** A QQID written as a string becomes a number exactly if, without the white space around it, it
      spells one of 64 bits, and then it becomes that number. */
  lemma QqidStringIsItsNumber(b: Fields, n: nat)
    requires "QQID" in b && b["QQID"].Str?
    ensures NormalizeQqid(b)["QQID"] == Int(n) <==> n < 0x1_0000_0000_0000_0000 && Spells(Trim(b["QQID"].s), n)
  {
    hide ParseU64, Spells;
    ParsedIffSpelled(Trim(b["QQID"].s), n);
  }
}
