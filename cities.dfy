/** The fixed table of supported city codes (server.js `CITY_MAP`). */
module Cities {

  /** City code (the `:city` path parameter) to the county/city name sent upstream. */
  const CityMap: map<string, string> := map[
    "taipei" := "臺北市",
    "new_taipei" := "新北市",
    "keelung" := "基隆市",
    "taoyuan" := "桃園市",
    "hsinchu_city" := "新竹市",
    "hsinchu_county" := "新竹縣",
    "miaoli" := "苗栗縣",
    "taichung" := "臺中市",
    "changhua" := "彰化縣",
    "nantou" := "南投縣",
    "yunlin" := "雲林縣",
    "chiayi_city" := "嘉義市",
    "chiayi_county" := "嘉義縣",
    "tainan" := "臺南市",
    "kaohsiung" := "高雄市",
    "pingtung" := "屏東縣",
    "yilan" := "宜蘭縣",
    "hualien" := "花蓮縣",
    "taitung" := "臺東縣",
    "penghu" := "澎湖縣",
    "kinmen" := "金門縣",
    "lienchiang" := "連江縣"
  ]

  /** The intended guard: a code is supported exactly when it is a key of the table. */
  predicate IsSupported(code: string) {
    code in CityMap
  }

  /** Every location name in the table is a non-empty string, hence truthy in
      JavaScript. */
  lemma CityNamesNonEmpty(code: string)
    requires code in CityMap
    ensures |CityMap[code]| > 0
  {
  }

  /** The table has 22 entries (the startup banner's "22 counties and
      cities"), and no two codes name the same place. */
  lemma {:induction false} TableSize()
    ensures |CityMap| == 22
    ensures forall a, b :: a in CityMap && b in CityMap && a != b ==> CityMap[a] != CityMap[b]
  {
    // Rebuild the table one entry at a time, each code fresh.
    var m: map<string, string> := map[];
    assert "taipei" !in m;
    m := m["taipei" := "臺北市"];
    assert "new_taipei" !in m;
    m := m["new_taipei" := "新北市"];
    assert "keelung" !in m;
    m := m["keelung" := "基隆市"];
    assert "taoyuan" !in m;
    m := m["taoyuan" := "桃園市"];
    assert "hsinchu_city" !in m;
    m := m["hsinchu_city" := "新竹市"];
    assert "hsinchu_county" !in m;
    m := m["hsinchu_county" := "新竹縣"];
    assert "miaoli" !in m;
    m := m["miaoli" := "苗栗縣"];
    assert "taichung" !in m;
    m := m["taichung" := "臺中市"];
    assert "changhua" !in m;
    m := m["changhua" := "彰化縣"];
    assert "nantou" !in m;
    m := m["nantou" := "南投縣"];
    assert "yunlin" !in m;
    m := m["yunlin" := "雲林縣"];
    assert "chiayi_city" !in m;
    m := m["chiayi_city" := "嘉義市"];
    assert "chiayi_county" !in m;
    m := m["chiayi_county" := "嘉義縣"];
    assert "tainan" !in m;
    m := m["tainan" := "臺南市"];
    assert "kaohsiung" !in m;
    m := m["kaohsiung" := "高雄市"];
    assert "pingtung" !in m;
    m := m["pingtung" := "屏東縣"];
    assert "yilan" !in m;
    m := m["yilan" := "宜蘭縣"];
    assert "hualien" !in m;
    m := m["hualien" := "花蓮縣"];
    assert "taitung" !in m;
    m := m["taitung" := "臺東縣"];
    assert "penghu" !in m;
    m := m["penghu" := "澎湖縣"];
    assert "kinmen" !in m;
    m := m["kinmen" := "金門縣"];
    assert "lienchiang" !in m;
    m := m["lienchiang" := "連江縣"];
    assert m == CityMap;
    // A left inverse from names back to codes shows the names are distinct.
    var codeOf := map[
      "臺北市" := "taipei",
      "新北市" := "new_taipei",
      "基隆市" := "keelung",
      "桃園市" := "taoyuan",
      "新竹市" := "hsinchu_city",
      "新竹縣" := "hsinchu_county",
      "苗栗縣" := "miaoli",
      "臺中市" := "taichung",
      "彰化縣" := "changhua",
      "南投縣" := "nantou",
      "雲林縣" := "yunlin",
      "嘉義市" := "chiayi_city",
      "嘉義縣" := "chiayi_county",
      "臺南市" := "tainan",
      "高雄市" := "kaohsiung",
      "屏東縣" := "pingtung",
      "宜蘭縣" := "yilan",
      "花蓮縣" := "hualien",
      "臺東縣" := "taitung",
      "澎湖縣" := "penghu",
      "金門縣" := "kinmen",
      "連江縣" := "lienchiang"
    ];
    forall a | a in CityMap
      ensures CityMap[a] in codeOf && codeOf[CityMap[a]] == a
    {
    }
  }

  // ---- The lookup as the handler writes it: `CITY_MAP[cityCode]` on a plain
  // ---- object literal, followed by a truthiness test.

  /** The properties every plain JavaScript object inherits from
      `Object.prototype`; reading any of them yields a function or an object. */
  const ObjectPrototypeMembers: set<string> := {
    "constructor", "__proto__", "__defineGetter__", "__defineSetter__",
    "__lookupGetter__", "__lookupSetter__", "hasOwnProperty", "isPrototypeOf",
    "propertyIsEnumerable", "toLocaleString", "toString", "valueOf"
  }

  /** What a property read `CITY_MAP[code]` yields. */
  datatype Property = Own(name: string) | Inherited | Undefined

  /** An own property shadows an inherited one; nothing else is found. */
  function PropertyAsWritten(code: string): Property {
    if code in CityMap then Own(CityMap[code])
    else if code in ObjectPrototypeMembers then Inherited
    else Undefined
  }

  /** JavaScript truthiness of the property read: a non-empty string or any
      inherited function/object is truthy, `undefined` is not. */
  predicate Truthy(p: Property) {
    match p
    case Own(name) => name != ""
    case Inherited => true
    case Undefined => false
  }

  /** The guard as written: `!targetLocation` rejects only falsy reads, so
      any inherited member name gets past it. */
  lemma GuardAsWritten(code: string)
    ensures Truthy(PropertyAsWritten(code)) <==> code in CityMap || code in ObjectPrototypeMembers
  {
  }
}
