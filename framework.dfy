/** The shapes of the Terraform plugin framework that the provider works with:
    tri-state attribute values (`types.String`, `types.Bool`, `types.Int32`),
    the append-only diagnostics list, what an operation does to the stored
    state, and Go's `interface{}` values as they travel in provider data. */
module Framework {

  datatype Option<T> = None | Some(value: T)

  /** Go's `int32`, the width of the `types.Int32` index attributes. */
  newtype int32 = x: int | -0x8000_0000 <= x < 0x8000_0000

  /** A Terraform attribute value: null, not yet known (computed later), or known. */
  datatype Value<T> = Null | Unknown | Known(v: T)

  /** `ValueString()`: the known string, or "" for null and unknown. */
  function ValueString(s: Value<string>): (r: string)
    ensures s.Known? ==> r == s.v
    ensures !s.Known? ==> r == ""
  {
    if s.Known? then s.v else ""
  }

  /** `ValueBool()`: the known boolean, or false for null and unknown. */
  function ValueBool(b: Value<bool>): (r: bool)
    ensures r <==> b == Known(true)
  {
    b.Known? && b.v
  }

  /** `ValueInt32()`: the known number, or 0 for null and unknown. */
  function ValueInt32(i: Value<int32>): (r: int32)
    ensures i.Known? ==> r == i.v
    ensures !i.Known? ==> r == 0
  {
    if i.Known? then i.v else 0
  }

  datatype Severity = Error | Warning

  datatype Diagnostic = Diagnostic(severity: Severity, summary: string, detail: string)

  /** `diag.Diagnostics`: an ordered list that operations only ever append to. */
  type Diagnostics = seq<Diagnostic>

  /** `diags.AddError(summary, detail)`. */
  function AddError(diags: Diagnostics, summary: string, detail: string): (r: Diagnostics)
    ensures |r| == |diags| + 1 && r[..|diags|] == diags
    ensures r[|diags|] == Diagnostic(Error, summary, detail)
  {
    diags + [Diagnostic(Error, summary, detail)]
  }

  /** `diags.HasError()`. */
  predicate HasError(diags: Diagnostics)
  {
    exists i :: 0 <= i < |diags| && diags[i].severity == Error
  }

  /** What one operation did to the stored state: nothing (`resp.State` keeps what
      the framework put there), `resp.State.Set(m)`, or `resp.State.RemoveResource()`. */
  datatype StateEffect<M> = Untouched | Set(model: M) | Removed

  /** The response object the framework hands to Read, Create, Update, Delete and ImportState. */
  datatype Response<M> = Response(diagnostics: Diagnostics, state: StateEffect<M>)

  /** An opaque `*http.Client`. */
  datatype HttpClient = HttpClient(handle: nat)

  /** A Go `interface{}` value as it appears in provider data and decoded JSON:
      a nil interface, a string, a `map[string]interface{}`, a `*http.Client`
      (possibly a typed nil pointer), or a value of any other dynamic type. */
  datatype Any =
    | NilAny
    | StringAny(s: string)
    | MapAny(entries: map<string, Any>)
    | HttpClientAny(client: Option<HttpClient>)
    | OtherAny

  /** A Go map lookup `m[key]`: the zero value, a nil interface, when the key is absent. */
  function Lookup(m: map<string, Any>, key: string): (r: Any)
    ensures key !in m ==> r == NilAny
    ensures key in m ==> r == m[key]
  {
    if key in m then m[key] else NilAny
  }
}
