/** How a tri-state attribute crosses the wire. On write a field goes into a
    set-config request only when it is Known. On read the resource kinds differ:
    the input resource keeps the prior value when the device leaves a field out,
    the sys and identity resources turn an absent name into Null, and the switch
    resource takes the field as present. */
module TriState {
  import opened Framework

  /** `if !v.IsNull() && !v.IsUnknown() { x := v.ValueX(); field = &x }`. */
  function WireField<T>(v: Value<T>): (w: Option<T>)
    ensures w.Some? <==> v.Known?
    ensures w.Some? ==> w.value == v.v
  {
    if v.Known? then Some(v.v) else None
  }

  /** `if resp.F != nil { state.F = types.XValue(*resp.F) }`: the input resource's read rule. */
  function Overlay<T>(prior: Value<T>, w: Option<T>): (r: Value<T>)
    ensures w.None? ==> r == prior
    ensures w.Some? ==> r == Known(w.value)
  {
    if w.Some? then Known(w.value) else prior
  }

  /** `if resp.Name == nil { types.StringNull() } else { types.StringValue(*resp.Name) }`:
      the sys and identity resources' read rule. */
  function NullableFromWire<T>(w: Option<T>): (r: Value<T>)
    ensures r.Unknown? == false
    ensures w.None? <==> r.Null?
    ensures w.Some? ==> r == Known(w.value)
  {
    if w.Some? then Known(w.value) else Null
  }

  /** Writing a value and reading it back under the nullable rule returns it,
      except that Unknown comes back as Null. */
  lemma NullableRoundTrip<T>(v: Value<T>)
    ensures NullableFromWire(WireField(v)) == (if v.Unknown? then Null else v)
  {
  }

  /** Writing a value and reading it back under the overlay rule returns it when
      it was Known and the prior value otherwise. */
  lemma OverlayRoundTrip<T>(prior: Value<T>, v: Value<T>)
    ensures Overlay(prior, WireField(v)) == (if v.Known? then v else prior)
  {
  }

  /** A request field carries a plan value: present exactly when the value is
      Known, and then holding that value verbatim. */
  predicate Carries<T(==)>(v: Value<T>, w: Option<T>)
  {
    (w.Some? <==> v.Known?) && (w.Some? ==> w.value == v.v)
  }

  /** WireField is the only encoding that carries the value. */
  lemma CarriesIsWireField<T>(v: Value<T>, w: Option<T>)
    ensures Carries(v, w) <==> w == WireField(v)
  {
  }
}
