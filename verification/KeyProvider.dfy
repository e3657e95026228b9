/** The in-memory key provider: it owns copies of the key bytes it was given (secure.go). */
module KeyProvider {
  import opened Results
  import opened Envelopes

  method CopyBytes(a: array<byte>) returns (b: array<byte>)
    ensures fresh(b) && b[..] == a[..]
  {
    b := new byte[a.Length];
    for i := 0 to a.Length
      invariant forall j | 0 <= j < i :: b[j] == a[j]
    {
      b[i] := a[i];
    }
  }

  method Clear(a: array<byte>)
    modifies a
    ensures forall i | 0 <= i < a.Length :: a[i] == 0
  {
    for i := 0 to a.Length
      invariant forall j | 0 <= j < i :: a[j] == 0
      modifies a
    {
      a[i] := 0;
    }
  }

  ghost function Contents(keys: map<string, array<byte>>): map<string, Bytes>
    reads keys.Values
  {
    map v | v in keys :: keys[v][..]
  }

  class MemoryKeyProvider {
    const current: string
    var keys: map<string, array<byte>>

    ghost function Repr(): set<object>
      reads this
    {
      {this} + keys.Values
    }

    ghost function Model(): Provider
      reads this, keys.Values
    {
      Provider(current, Contents(keys))
    }

    ghost predicate Valid()
      reads this, keys.Values
    {
      ValidProvider(Model())
    }

    constructor (current: string, keys: map<string, array<byte>>)
      ensures this.current == current && this.keys == keys
    {
      this.current := current;
      this.keys := keys;
    }

    /** Hands out a copy, so a caller that clears it does not touch the provider. */
    method Current() returns (version: string, key: array<byte>)
      requires Valid()
      ensures fresh(key) && version == Model().current && key[..] == Model().keys[version]
    {
      version := current;
      key := CopyBytes(keys[current]);
    }

    method Key(version: string) returns (r: Result<array<byte>>)
      requires Valid()
      ensures r.Ok? <==> version in Model().keys
      ensures r.Ok? ==> fresh(r.value) && r.value[..] == Model().keys[version]
    {
      if version !in keys {
        return Err(Internal);
      }
      var key := CopyBytes(keys[version]);
      r := Ok(key);
    }
  }

  ghost predicate GoodMaterial(current: string, keys: map<string, Bytes>) {
    && current != "" && current in keys
    && forall v | v in keys :: v != "" && |keys[v]| == KEY_BYTES
  }

  /** Copies every key; accepts exactly well-formed key material. */
  method NewMemoryKeyProvider(current: string, keys: map<string, array<byte>>) returns (r: Result<MemoryKeyProvider>)
    ensures r.Ok? <==> GoodMaterial(current, Contents(keys))
    ensures r.Ok? <==> current != "" && current in keys && forall v | v in keys :: v != "" && keys[v].Length == 32
    ensures r.Ok? ==>
      && r.value.Valid() && fresh(r.value.Repr())
      && r.value.Model() == Provider(current, Contents(keys))
  {
    if current == "" || current !in keys || keys[current].Length != KEY_BYTES {
      return Err(Internal);
    }
    var copies: map<string, array<byte>> := map[];
    var todo := keys.Keys;
    while todo != {}
      invariant todo <= keys.Keys && copies.Keys == keys.Keys - todo
      invariant forall v | v in copies :: fresh(copies[v]) && copies[v][..] == keys[v][..]
      invariant forall v | v in copies :: v != "" && |keys[v][..]| == KEY_BYTES
      decreases |todo|
    {
      var v :| v in todo;
      if v == "" || keys[v].Length != KEY_BYTES {
        assert v in Contents(keys);
        return Err(Internal);
      }
      var copy := CopyBytes(keys[v]);
      copies := copies[v := copy];
      todo := todo - {v};
    }
    var provider := new MemoryKeyProvider(current, copies);
    assert Contents(copies) == Contents(keys);
    r := Ok(provider);
  }
}
