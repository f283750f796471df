/** One configuration entry of the accepted array, as the body of render()'s
    `forEach` turns it into an image: the defaults of each field, the
    conversion to numbers, the float vector, and the image that is appended. */
module Entry {
  import opened Js
  import opened FloatMotion

  /** The defaults of the numeric fields at a position `index` of the array. */
  const DefaultStrength: real := 12.0

  function DefaultZ(index: nat): real {
    index as real * 15.0
  }

  function DefaultDuration(index: nat): real {
    6.0 + index as real * 1.5
  }

  function DefaultDelay(index: nat): real {
    -(index as real)
  }

  /** The settings of one entry once its defaults are applied. */
  datatype Settings = Settings(
    direction: JsValue,
    strength: JsNumber,
    z: JsNumber,
    duration: JsNumber,
    delay: JsNumber)

  /** The defaulting of the forEach body: `||` for the direction, `??` and
      `Number()` for the four numbers. */
  function SettingsOf(config: JsValue, index: nat, numeral: string -> JsNumber): (r: Settings)
    requires !Nullish(config)
    ensures Truthy(r.direction)
    ensures config.Obj? && config.props.Keys == {} ==>
              r == Settings(Str("y"), Num(12.0), Num(index as real * 15.0),
                            Num(6.0 + index as real * 1.5), Num(-(index as real)))
  {
    Settings(
      Or(Get(config, "direction"), Str("y")),
      ToNumber(Coalesce(Get(config, "strength"), Num(DefaultStrength)), numeral),
      ToNumber(Coalesce(Get(config, "z"), Num(DefaultZ(index))), numeral),
      ToNumber(Coalesce(Get(config, "duration"), Num(DefaultDuration(index))), numeral),
      ToNumber(Coalesce(Get(config, "delay"), Num(DefaultDelay(index))), numeral))
  }

  /** What the appended `<img>` carries: its `src` (set only when the entry's
      `src` is truthy), the float offsets, the depth and the timing. */
  datatype Image = Image(
    src: Option<JsValue>,
    floatX: JsNumber,
    floatY: JsNumber,
    z: JsNumber,
    duration: JsNumber,
    delay: JsNumber)

  function ImageOf(config: JsValue, index: nat, numeral: string -> JsNumber): (r: Image)
    requires !Nullish(config)
    ensures r.src.Some? ==> Truthy(r.src.value) && r.src.value == Get(config, "src")
    ensures SettingsOf(config, index, numeral).direction != Str("xy") ==> r.floatX == Num(0.0) || r.floatY == Num(0.0)
  {
    var src := Get(config, "src");
    var settings := SettingsOf(config, index, numeral);
    var offset := FloatVector(settings.direction, settings.strength);
    Image(if Truthy(src) then Some(src) else None,
          offset.x, offset.y, settings.z, settings.duration, settings.delay)
  }

  /** A field that is absent, undefined or null takes its default: strength
      12, depth index * 15, duration 6 + index * 1.5, delay -index; a falsy
      direction becomes "y". */
  lemma AbsentFieldsTakeDefaults(config: JsValue, index: nat, numeral: string -> JsNumber)
    requires !Nullish(config)
    ensures !Truthy(Get(config, "direction")) ==> SettingsOf(config, index, numeral).direction == Str("y")
    ensures Nullish(Get(config, "strength")) ==> SettingsOf(config, index, numeral).strength == Num(12.0)
    ensures Nullish(Get(config, "z")) ==> SettingsOf(config, index, numeral).z == Num(index as real * 15.0)
    ensures Nullish(Get(config, "duration")) ==>
              SettingsOf(config, index, numeral).duration == Num(6.0 + index as real * 1.5)
    ensures Nullish(Get(config, "delay")) ==> SettingsOf(config, index, numeral).delay == Num(-(index as real))
  {
  }

  /** A number given for a field is kept as it is, 0 included: `??` only
      replaces undefined and null. A truthy direction is kept too. */
  lemma GivenFieldsAreKept(config: JsValue, index: nat, numeral: string -> JsNumber)
    requires config.Obj?
    ensures Truthy(Get(config, "direction")) ==> SettingsOf(config, index, numeral).direction == config.props["direction"]
    ensures "strength" in config.props && config.props["strength"].Num? ==>
              SettingsOf(config, index, numeral).strength == config.props["strength"]
    ensures "z" in config.props && config.props["z"].Num? ==> SettingsOf(config, index, numeral).z == config.props["z"]
    ensures "duration" in config.props && config.props["duration"].Num? ==>
              SettingsOf(config, index, numeral).duration == config.props["duration"]
    ensures "delay" in config.props && config.props["delay"].Num? ==>
              SettingsOf(config, index, numeral).delay == config.props["delay"]
  {
  }

  /** An explicit strength of 0 stays 0 and the image does not move, where
      `||` defaulting would have made it 12. */
  lemma ZeroStrengthIsKept(config: JsValue, index: nat, numeral: string -> JsNumber)
    requires config.Obj? && "strength" in config.props && config.props["strength"] == Num(0.0)
    ensures SettingsOf(config, index, numeral).strength == Num(0.0)
    ensures ImageOf(config, index, numeral).floatX == Num(0.0)
    ensures ImageOf(config, index, numeral).floatY == Num(0.0)
    ensures ToNumber(Or(config.props["strength"], Num(DefaultStrength)), numeral) == Num(12.0)
  {
  }

  /** Concrete defaults of an entry `{}`: depth 30 at index 2, duration 7.5
      at index 1, delay -3 at index 3, and 0, 6 and 0 at the first position. */
  lemma DefaultExamples(numeral: string -> JsNumber)
    ensures SettingsOf(Obj(map[]), 2, numeral).z == Num(30.0)
    ensures SettingsOf(Obj(map[]), 1, numeral).duration == Num(7.5)
    ensures SettingsOf(Obj(map[]), 3, numeral).delay == Num(-3.0)
    ensures SettingsOf(Obj(map[]), 0, numeral) == Settings(Str("y"), Num(12.0), Num(0.0), Num(6.0), Num(0.0))
  {
  }
}
