/** The weather card: the WMO weather interpretation code (code table 4677
    of the World Meteorological Organization, as served by Open-Meteo)
    banded into a description and an icon, the place name taken from a
    reverse-geocoded address, and the outfit suggestions derived from the
    temperature, the precipitation and the wind speed. */
module Weather {
  import opened Common

  /** The icon drawn for a weather code; the two cloud icons differ in
      shade. */
  datatype WeatherIcon = SunIcon | LightCloudIcon | RainCloudIcon | SnowflakeIcon | DarkCloudIcon

  /** `getWeatherIcon`: the same thresholds as the description. */
  function IconFor(code: int): (icon: WeatherIcon)
    ensures icon == SunIcon <==> code == 0
    ensures icon == LightCloudIcon <==> code != 0 && code <= 3
    ensures icon == RainCloudIcon <==> 3 < code <= 67
    ensures icon == SnowflakeIcon <==> 67 < code <= 77
    ensures icon == DarkCloudIcon <==> 77 < code
  {
    if code == 0 then SunIcon
    else if code <= 3 then LightCloudIcon
    else if code <= 67 then RainCloudIcon
    else if code <= 77 then SnowflakeIcon
    else DarkCloudIcon
  }

  /** `getWeatherDescription`: code 0 is a clear sky, every other code up to
      3 (negative ones included) partly cloudy, up to 67 rain, up to 77
      snow, and everything above cloudy. */
  function Description(code: int): (d: string)
    ensures d == "Clear Sky" <==> code == 0
    ensures d == "Partly Cloudy" <==> code != 0 && code <= 3
    ensures d == "Rainy" <==> 3 < code <= 67
    ensures d == "Snowy" <==> 67 < code <= 77
    ensures d == "Cloudy" <==> 77 < code
  {
    if code == 0 then "Clear Sky"
    else if code <= 3 then "Partly Cloudy"
    else if code <= 67 then "Rainy"
    else if code <= 77 then "Snowy"
    else "Cloudy"
  }

  /** The icon that belongs to each description. */
  function IconOfDescription(d: string): WeatherIcon
  {
    if d == "Clear Sky" then SunIcon
    else if d == "Partly Cloudy" then LightCloudIcon
    else if d == "Rainy" then RainCloudIcon
    else if d == "Snowy" then SnowflakeIcon
    else DarkCloudIcon
  }

  /** Icon and description always show the same band, and distinct bands
      get distinct descriptions and distinct icons. */
  lemma IconAgreesWithDescription(code: int, other: int)
    ensures IconOfDescription(Description(code)) == IconFor(code)
    ensures Description(code) == Description(other) <==> IconFor(code) == IconFor(other)
  {
  }

  /** The current conditions the suggestions are drawn from: temperature
      and wind speed as rounded by the card, precipitation as reported. */
  datatype Conditions = Conditions(temperature: int, windSpeed: int, precipitation: real)

  /** The icon of a suggestion card. */
  datatype CardIcon = Shirt | Glasses | Footprints | Sun | Umbrella | Wind

  /** One suggestion card. */
  datatype Suggestion = Suggestion(category: string, icon: CardIcon, items: seq<string>,
                                   color: string, description: string)

  const ColdOuterwear := Suggestion("Outerwear", Shirt, ["Heavy Coat", "Wool Jacket", "Puffer Jacket"],
                                    "from-blue-500 to-blue-700", "Layer up with warm, insulated pieces")
  const ColdAccessories := Suggestion("Accessories", Glasses, ["Scarf", "Gloves", "Beanie"],
                                      "from-purple-500 to-purple-700", "Essential cold-weather accessories")
  const MildOuterwear := Suggestion("Outerwear", Shirt, ["Light Jacket", "Cardigan", "Hoodie"],
                                    "from-teal-500 to-teal-700", "Comfortable layers for mild weather")
  const MildBottoms := Suggestion("Bottoms", Footprints, ["Jeans", "Chinos", "Long Pants"],
                                 "from-indigo-500 to-indigo-700", "Versatile options for cool days")
  const WarmTops := Suggestion("Tops", Shirt, ["T-Shirt", "Light Shirt", "Polo"],
                               "from-green-500 to-green-700", "Breathable and comfortable choices")
  const WarmBottoms := Suggestion("Bottoms", Footprints, ["Shorts", "Light Pants", "Skirt"],
                                  "from-yellow-500 to-yellow-700", "Stay cool and stylish")
  const HotSummerWear := Suggestion("Summer Wear", Sun, ["Tank Top", "Shorts", "Sundress"],
                                    "from-orange-500 to-red-600", "Beat the heat with light fabrics")
  const HotProtection := Suggestion("Protection", Glasses, ["Sunglasses", "Hat", "Sunscreen"],
                                    "from-pink-500 to-pink-700", "Essential sun protection")
  const RainGear := Suggestion("Rain Gear", Umbrella, ["Umbrella", "Raincoat", "Waterproof Boots"],
                               "from-blue-600 to-cyan-600", "Stay dry in wet conditions")
  const WindProtection := Suggestion("Wind Protection", Wind, ["Windbreaker", "Fitted Clothing", "Hair Ties"],
                                     "from-slate-500 to-slate-700", "Secure your style against the wind")

  /** The card lists keys its cards by category name. */
  predicate DistinctCategories(cards: seq<Suggestion>)
  {
    forall i, j :: 0 <= i < j < |cards| ==> cards[i].category != cards[j].category
  }

  /** `getFashionSuggestions`: nothing without weather; otherwise two cards
      for the temperature band (below 10, below 20, below 30, hotter), then
      rain gear exactly when it is raining and wind protection exactly when
      the wind exceeds 20, in that order. At most four cards are pushed, so
      the final cut to four drops none. */
  method FashionSuggestions(weather: Option<Conditions>) returns (r: seq<Suggestion>)
    ensures weather.None? ==> r == []
    ensures weather.Some? ==> |r| == 2 + (if weather.value.precipitation > 0.0 then 1 else 0)
                                        + (if weather.value.windSpeed > 20 then 1 else 0)
    ensures weather.Some? && weather.value.temperature < 10 ==> r[..2] == [ColdOuterwear, ColdAccessories]
    ensures weather.Some? && 10 <= weather.value.temperature < 20 ==> r[..2] == [MildOuterwear, MildBottoms]
    ensures weather.Some? && 20 <= weather.value.temperature < 30 ==> r[..2] == [WarmTops, WarmBottoms]
    ensures weather.Some? && 30 <= weather.value.temperature ==> r[..2] == [HotSummerWear, HotProtection]
    ensures weather.Some? ==> (RainGear in r <==> weather.value.precipitation > 0.0)
    ensures weather.Some? ==> (WindProtection in r <==> weather.value.windSpeed > 20)
    ensures weather.Some? && weather.value.precipitation > 0.0 ==> r[2] == RainGear
    ensures weather.Some? && weather.value.windSpeed > 20 ==> r[|r| - 1] == WindProtection
    ensures DistinctCategories(r)
  {
    if weather.None? {
      return [];
    }
    var temp := weather.value.temperature;
    var isRaining := weather.value.precipitation > 0.0;
    var isWindy := weather.value.windSpeed > 20;

    var suggestions: seq<Suggestion> := [];
    if temp < 10 {
      suggestions := suggestions + [ColdOuterwear];
      suggestions := suggestions + [ColdAccessories];
    } else if temp < 20 {
      suggestions := suggestions + [MildOuterwear];
      suggestions := suggestions + [MildBottoms];
    } else if temp < 30 {
      suggestions := suggestions + [WarmTops];
      suggestions := suggestions + [WarmBottoms];
    } else {
      suggestions := suggestions + [HotSummerWear];
      suggestions := suggestions + [HotProtection];
    }
    ghost var byTemperature := suggestions;
    assert |byTemperature| == 2 && byTemperature[0].category != byTemperature[1].category;
    assert RainGear !in byTemperature && WindProtection !in byTemperature;
    if isRaining {
      suggestions := suggestions + [RainGear];
    }
    assert suggestions[..2] == byTemperature;
    if isWindy {
      suggestions := suggestions + [WindProtection];
    }
    assert suggestions[..2] == byTemperature;
    assert |suggestions| <= 4;
    r := suggestions[..if |suggestions| < 4 then |suggestions| else 4];
    assert r == suggestions;
  }

  /** The address fields tried for the place name, in order. */
  const PlaceKeys: seq<string> := ["city", "town", "village", "county"]

  /** The value of the first of `keys` that `address` holds as a non-empty
      text (a truthy value in JavaScript). */
  function FirstPresent(address: map<string, string>, keys: seq<string>): (r: Option<string>)
    ensures r.Some? <==> exists i :: 0 <= i < |keys| && keys[i] in address && address[keys[i]] != ""
    ensures r.Some? ==> r.value != ""
  {
    if keys == [] then None
    else if keys[0] in address && address[keys[0]] != "" then Some(address[keys[0]])
    else
      var r := FirstPresent(address, keys[1..]);
      assert forall i :: 1 <= i < |keys| ==> keys[i] == keys[1..][i - 1];
      r
  }

  /** The value found is that of the first key holding a non-empty text. */
  lemma {:induction false} FirstPresentIsFirst(address: map<string, string>, keys: seq<string>)
    requires FirstPresent(address, keys).Some?
    ensures exists i :: 0 <= i < |keys| && keys[i] in address && address[keys[i]] == FirstPresent(address, keys).value
                        && forall j :: 0 <= j < i ==> !(keys[j] in address && address[keys[j]] != "")
  {
    if keys[0] in address && address[keys[0]] != "" {
      assert keys[0] in address && address[keys[0]] == FirstPresent(address, keys).value;
    } else {
      FirstPresentIsFirst(address, keys[1..]);
      var i :| 0 <= i < |keys[1..]| && keys[1..][i] in address
        && address[keys[1..][i]] == FirstPresent(address, keys[1..]).value
        && forall j :: 0 <= j < i ==> !(keys[1..][j] in address && address[keys[1..][j]] != "");
      assert keys[i + 1] == keys[1..][i];
      assert forall j :: 1 <= j < i + 1 ==> keys[j] == keys[1..][j - 1];
    }
  }

  /** The place name: city, town, village or county, the first one given
      and non-empty, and "Unknown Location" when none is. */
  function LocationName(address: map<string, string>): (name: string)
    ensures name != ""
  {
    var found := FirstPresent(address, PlaceKeys);
    if found.Some? then found.value else "Unknown Location"
  }

  /** The place name is the first non-empty of the four address fields,
      and the fallback exactly when none of them is. */
  lemma LocationNamePriority(address: map<string, string>)
    ensures (forall i :: 0 <= i < |PlaceKeys| ==> !(PlaceKeys[i] in address && address[PlaceKeys[i]] != ""))
            ==> LocationName(address) == "Unknown Location"
    ensures (exists i :: 0 <= i < |PlaceKeys| && PlaceKeys[i] in address && address[PlaceKeys[i]] != "")
            ==> exists i :: 0 <= i < |PlaceKeys| && PlaceKeys[i] in address
                  && LocationName(address) == address[PlaceKeys[i]]
                  && forall j :: 0 <= j < i ==> !(PlaceKeys[j] in address && address[PlaceKeys[j]] != "")
  {
    if FirstPresent(address, PlaceKeys).Some? {
      FirstPresentIsFirst(address, PlaceKeys);
    }
  }
}
