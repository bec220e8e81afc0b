/** The board's configuration `{lat, scaleNoise, stroke}` and the partial
    updates `setConfig` merges into it. */
module Config {
  import opened Js

  /** `lat` is the side of a tile in pixels; the two flags are tested for
      truthiness only, and `setConfig` stores whatever value it is given. */
  datatype DrawConfig = DrawConfig(lat: real, scaleNoise: JsValue, stroke: JsValue)

  /** The defaults a new board starts from. */
  const DEFAULT_CONFIG: DrawConfig := DrawConfig(50.0, Boolean(true), Boolean(true))

  /** `Partial<DrawConfig>`: a field is `None` when it is `undefined`. */
  datatype PartialConfig = PartialConfig(lat: Option<real>, scaleNoise: Option<JsValue>, stroke: Option<JsValue>)

  /** The configuration after `setConfig(p)`, where `p` is `None` for a
      `null` or `undefined` argument. Each field takes the partial's value
      when that is defined and keeps the old one otherwise. */
  function Merge(c: DrawConfig, p: Option<PartialConfig>): (r: DrawConfig)
    ensures p.None? ==> r == c
    ensures p.Some? ==>
      && r.lat == (if p.value.lat.Some? then p.value.lat.value else c.lat)
      && r.scaleNoise == (if p.value.scaleNoise.Some? then p.value.scaleNoise.value else c.scaleNoise)
      && r.stroke == (if p.value.stroke.Some? then p.value.stroke.value else c.stroke)
  {
    match p
    case None => c
    case Some(q) => DrawConfig(q.lat.GetOr(c.lat), q.scaleNoise.GetOr(c.scaleNoise), q.stroke.GetOr(c.stroke))
  }

  /** The single partial update that has the effect of `p` followed by `q`:
      every field `q` defines wins, the others come from `p`. */
  function Then(p: Option<PartialConfig>, q: Option<PartialConfig>): (r: Option<PartialConfig>)
  {
    match (p, q)
    case (None, _) => q
    case (_, None) => p
    case (Some(a), Some(b)) =>
      Some(PartialConfig(
        if b.lat.Some? then b.lat else a.lat,
        if b.scaleNoise.Some? then b.scaleNoise else a.scaleNoise,
        if b.stroke.Some? then b.stroke else a.stroke))
  }

  /** The partial update that defines every field of `d`. */
  function Full(d: DrawConfig): (p: PartialConfig) {
    PartialConfig(Some(d.lat), Some(d.scaleNoise), Some(d.stroke))
  }

  /** Two `setConfig` calls in a row act as one call with the later
      values winning field by field. */
  lemma MergeThen(c: DrawConfig, p: Option<PartialConfig>, q: Option<PartialConfig>)
    ensures Merge(Merge(c, p), q) == Merge(c, Then(p, q))
  {
  }

  /** Applying the same partial update twice changes nothing more. */
  lemma MergeIdempotent(c: DrawConfig, p: Option<PartialConfig>)
    ensures Merge(Merge(c, p), p) == Merge(c, p)
  {
  }

  /** An absent argument and an empty partial both leave the configuration
      unchanged; a partial defining every field replaces it whatever it was. */
  lemma MergeIdentityAndOverwrite(c: DrawConfig, d: DrawConfig)
    ensures Merge(c, None) == c
    ensures Merge(c, Some(PartialConfig(None, None, None))) == c
    ensures Merge(c, Some(Full(d))) == d
  {
  }

  /** A field of the result depends only on that field of the old
      configuration and of the partial update. */
  lemma MergeFieldsIndependent(c1: DrawConfig, c2: DrawConfig, p1: PartialConfig, p2: PartialConfig)
    ensures c1.lat == c2.lat && p1.lat == p2.lat ==>
      Merge(c1, Some(p1)).lat == Merge(c2, Some(p2)).lat
    ensures c1.scaleNoise == c2.scaleNoise && p1.scaleNoise == p2.scaleNoise ==>
      Merge(c1, Some(p1)).scaleNoise == Merge(c2, Some(p2)).scaleNoise
    ensures c1.stroke == c2.stroke && p1.stroke == p2.stroke ==>
      Merge(c1, Some(p1)).stroke == Merge(c2, Some(p2)).stroke
  {
  }

  /** Merging boolean flags into a configuration whose flags are booleans
      keeps them booleans (what the TypeScript types promise). */
  lemma MergeKeepsBooleans(c: DrawConfig, p: Option<PartialConfig>)
    requires IsBoolean(c.scaleNoise) && IsBoolean(c.stroke)
    requires p.Some? && p.value.scaleNoise.Some? ==> IsBoolean(p.value.scaleNoise.value)
    requires p.Some? && p.value.stroke.Some? ==> IsBoolean(p.value.stroke.value)
    ensures IsBoolean(Merge(c, p).scaleNoise) && IsBoolean(Merge(c, p).stroke)
  {
  }

  /** The `script.js` start-up configuration `{lat: 60, scaleNoise: 1,
      stroke: 0}` is stored as given: the numbers are kept, and they read as
      "scale noise on" and "stroke off". */
  lemma ScriptStartupConfig()
    ensures var c := Merge(DEFAULT_CONFIG, Some(PartialConfig(Some(60.0), Some(Number(1.0)), Some(Number(0.0)))));
      && c == DrawConfig(60.0, Number(1.0), Number(0.0))
      && Truthy(c.scaleNoise) && !Truthy(c.stroke)
  {
  }
}
