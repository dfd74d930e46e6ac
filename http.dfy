/**
 * The response value handed from the transport to a formatter callback
 * (`base.Response(code, headers, body)`) and the header mapping inside it.
 * The HTTP libraries the client uses give header mappings whose lookup
 * ignores the case of the name. HeaderLookup models that lookup over a list
 * of (name, value) pairs and, when a name occurs more than once, takes the
 * first; how the libraries themselves combine repeated headers is not
 * modelled.
 */
module Http {
  import opened Wrappers
  import opened Text

  /** Header (name, value) pairs in the order the server sent them. */
  type Headers = seq<(string, string)>

  datatype Response = Response(code: int, headers: Headers, body: string)

  /** `headers[name]`: the value of the first header whose name equals `name` up to case. */
  function HeaderLookup(headers: Headers, name: string): Option<string>
    decreases |headers|
  {
    if headers == [] then None
    else if FoldCase(headers[0].0) == FoldCase(name) then Some(headers[0].1)
    else HeaderLookup(headers[1..], name)
  }

  /** Lookup finds a value exactly when some header name matches, and the value is that of the first match. */
  lemma {:induction false} HeaderLookupFindsFirstMatch(headers: Headers, name: string)
    ensures HeaderLookup(headers, name).Some? <==>
              exists i :: 0 <= i < |headers| && FoldCase(headers[i].0) == FoldCase(name)
    ensures HeaderLookup(headers, name).Some? ==>
              exists i :: 0 <= i < |headers| && FoldCase(headers[i].0) == FoldCase(name)
                          && headers[i].1 == HeaderLookup(headers, name).value
                          && forall j :: 0 <= j < i ==> FoldCase(headers[j].0) != FoldCase(name)
    decreases |headers|
  {
    if headers != [] && FoldCase(headers[0].0) != FoldCase(name) {
      var rest := headers[1..];
      HeaderLookupFindsFirstMatch(rest, name);
      if HeaderLookup(rest, name).Some? {
        var i :| 0 <= i < |rest| && FoldCase(rest[i].0) == FoldCase(name)
                 && rest[i].1 == HeaderLookup(rest, name).value
                 && forall j :: 0 <= j < i ==> FoldCase(rest[j].0) != FoldCase(name);
        assert headers[i + 1] == rest[i];
        forall j | 0 <= j < i + 1
          ensures FoldCase(headers[j].0) != FoldCase(name)
        {
          if j > 0 { assert headers[j] == rest[j - 1]; }
        }
      } else {
        forall i | 0 <= i < |headers|
          ensures FoldCase(headers[i].0) != FoldCase(name)
        {
          if i > 0 { assert headers[i] == rest[i - 1]; }
        }
      }
    }
  }

  /** Spelling the header name in another case finds the same value. */
  lemma {:induction false} HeaderLookupIgnoresCase(headers: Headers, a: string, b: string)
    requires FoldCase(a) == FoldCase(b)
    ensures HeaderLookup(headers, a) == HeaderLookup(headers, b)
    decreases |headers|
  {
    if headers != [] {
      HeaderLookupIgnoresCase(headers[1..], a, b);
    }
  }
}
