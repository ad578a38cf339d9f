/** The prototype registry: fully built websites are registered under an
    identifier and cloned on demand with some attributes overridden.
    A website's attributes are an open bag, a map from attribute name to a
    value of the finite `Value` type; because values are immutable, the deep
    copy the registry makes is plain value semantics. */
module Prototype {
  import opened Wrappers
  import opened Text

  /** The attribute values a website holds: `None`, integers, strings and
      (nested) tuples of values. */
  datatype Value = VNone | VInt(i: int) | VStr(s: string) | VTuple(items: seq<Value>)

  /** `str(v)`: a string is itself, a tuple is parenthesised. */
  function Str(v: Value): (r: string)
    ensures v.VStr? ==> r == v.s
    ensures v.VTuple? ==> |r| >= 2 && r[0] == '(' && r[|r| - 1] == ')'
    decreases v, 1
  {
    match v
    case VNone => "None"
    case VInt(i) => IntToString(i)
    case VStr(s) => s
    case VTuple(items) =>
      "(" + Join(seq(|items|, k requires 0 <= k < |items| => Repr(items[k])), ", ")
      + (if |items| == 1 then "," else "") + ")"
  }

  /** `repr(v)`, as used for the elements of a tuple: a string in single
      quotes, anything else as `str` gives it. */
  function Repr(v: Value): (r: string)
    ensures v.VStr? ==> |r| == |v.s| + 2 && r[0] == '\'' && r[|r| - 1] == '\'' && r[1..|r| - 1] == v.s
    ensures !v.VStr? ==> r == Str(v)
    decreases v, 2
  {
    match v
    case VStr(s) => "'" + s + "'"
    case _ => Str(v)
  }

  datatype Website = Website(attrs: map<string, Value>)

  /** The attributes every website gets from its constructor's positional parameters. */
  const Required: set<string> := {"name", "domain", "description", "author"}

  /** The `setattr` loop: each keyword argument becomes, or replaces, an attribute. */
  method SetAttributes(w: Website, kwargs: map<string, Value>) returns (r: Website)
    ensures r.attrs == w.attrs + kwargs
  {
    r := w;
    var pending := kwargs.Keys;
    while pending != {}
      invariant pending <= kwargs.Keys
      invariant r.attrs == w.attrs + map k | k in kwargs.Keys - pending :: kwargs[k]
      decreases pending
    {
      var key :| key in pending;
      r := Website(r.attrs[key := kwargs[key]]);
      pending := pending - {key};
    }
    assert (map k | k in kwargs.Keys - {} :: kwargs[k]) == kwargs;
  }

  /** `Website(name, domain, description, author, **kwargs)`. Python itself
      refuses a keyword argument that repeats a positional parameter. */
  method NewWebsite(name: Value, domain: Value, description: Value, author: Value, kwargs: map<string, Value>)
    returns (w: Website)
    requires kwargs.Keys !! Required
    ensures w.attrs.Keys == Required + kwargs.Keys
    ensures w.attrs["name"] == name && w.attrs["domain"] == domain
    ensures w.attrs["description"] == description && w.attrs["author"] == author
    ensures forall k :: k in kwargs ==> w.attrs[k] == kwargs[k]
  {
    var base := Website(map["name" := name, "domain" := domain, "description" := description, "author" := author]);
    w := SetAttributes(base, kwargs);
  }

  // ------------------------------------------------------------ __str__

  /** The first line of `str(w)`: `Website "<name>"`. */
  function Header(w: Website): (r: string)
    requires "name" in w.attrs
    ensures |r| == |Str(w.attrs["name"])| + 11
    ensures r[..9] == "Website \"" && r[9..|r| - 2] == Str(w.attrs["name"]) && r[|r| - 2..] == "\"\n"
  {
    var n := Str(w.attrs["name"]);
    var h := "Website \"" + n + "\"\n";
    assert h[..9] == "Website \"" && h[9..|h| - 2] == n && h[|h| - 2..] == "\"\n";
    h
  }

  /** One attribute's line: `attr: val`, ended by a newline. */
  function InfoLine(attr: string, val: Value): (r: string)
    ensures |r| == |attr| + |Str(val)| + 3
    ensures r[..|attr|] == attr && r[|attr|..|attr| + 2] == ": "
    ensures r[|attr| + 2..|r| - 1] == Str(val) && r[|r| - 1] == '\n'
  {
    var l := attr + ": " + Str(val) + "\n";
    assert l[..|attr|] == attr && l[|attr|..|attr| + 2] == ": " && l[|attr| + 2..|l| - 1] == Str(val);
    l
  }

  /** The loop over the sorted attributes, skipping `name`: at most one line
      per attribute, and exactly one each when `name` is not among them. */
  function InfoLines(keys: seq<string>, attrs: map<string, Value>): (r: seq<string>)
    requires forall k :: k in keys ==> k in attrs
    ensures |r| <= |keys|
    ensures "name" !in keys ==> r == Lines(keys, attrs)
  {
    if keys == [] then []
    else (if keys[0] == "name" then [] else [InfoLine(keys[0], attrs[keys[0]])]) + InfoLines(keys[1..], attrs)
  }

  /** The pieces `__str__` joins: the header, then one line for each
      attribute other than `name`, in sorted order. */
  function SummaryLines(w: Website): (r: seq<string>)
    requires "name" in w.attrs
    ensures |r| > 0 && r[0] == Header(w)
    ensures r[1..] == Lines(Without(Sorted(w.attrs.Keys), "name"), w.attrs)
  {
    InfoLinesAre(Sorted(w.attrs.Keys), w.attrs);
    [Header(w)] + InfoLines(Sorted(w.attrs.Keys), w.attrs)
  }

  /** `str(w)`: it begins with the header. */
  function Summary(w: Website): (r: string)
    requires "name" in w.attrs
    ensures |Header(w)| <= |r| && r[..|Header(w)|] == Header(w)
  {
    JoinBegins(SummaryLines(w), "");
    Join(SummaryLines(w), "")
  }

  /** `keys` with every occurrence of `x` left out. */
  function Without(keys: seq<string>, x: string): (r: seq<string>)
    ensures forall k :: k in r <==> k in keys && k != x
  {
    if keys == [] then []
    else (if keys[0] == x then [] else [keys[0]]) + Without(keys[1..], x)
  }

  lemma {:induction false} WithoutSorted(keys: seq<string>, x: string)
    requires StrictlySorted(keys)
    ensures StrictlySorted(Without(keys, x))
  {
    if keys != [] {
      WithoutSorted(keys[1..], x);
      var rest := Without(keys[1..], x);
      forall j | 0 <= j < |rest| ensures Less(keys[0], rest[j]) {
        assert rest[j] in keys[1..];
      }
    }
  }

  /** One `attr: val` line for each of `ks`, in order. */
  function Lines(ks: seq<string>, attrs: map<string, Value>): (r: seq<string>)
    requires forall k :: k in ks ==> k in attrs
    ensures |r| == |ks|
    ensures forall i :: 0 <= i < |ks| ==> r[i] == InfoLine(ks[i], attrs[ks[i]])
  {
    if ks == [] then [] else [InfoLine(ks[0], attrs[ks[0]])] + Lines(ks[1..], attrs)
  }

  /** Skipping `name` inside the loop is the same as leaving it out beforehand. */
  lemma {:induction false} InfoLinesAre(keys: seq<string>, attrs: map<string, Value>)
    requires forall k :: k in keys ==> k in attrs
    ensures InfoLines(keys, attrs) == Lines(Without(keys, "name"), attrs)
  {
    if keys != [] {
      InfoLinesAre(keys[1..], attrs);
      var rest := Without(keys[1..], "name");
      if keys[0] != "name" {
        assert ([keys[0]] + rest)[1..] == rest;
      }
    }
  }

  /** What `__str__` gives: the header `Website "<name>"`, then for every other
      attribute, in ascending order of attribute name, one line `attr: val`.
      Stated for any ascending enumeration `ks` of the other attributes, so it
      does not depend on how the sorting is done. */
  lemma SummaryShape(w: Website, ks: seq<string>)
    requires "name" in w.attrs
    requires StrictlySorted(ks)
    requires forall k :: k in ks <==> k in w.attrs && k != "name"
    ensures SummaryLines(w) == [Header(w)] + Lines(ks, w.attrs)
  {
    var sorted := Sorted(w.attrs.Keys);
    WithoutSorted(sorted, "name");
    SortedUnique(Without(sorted, "name"), ks);
    InfoLinesAre(sorted, w.attrs);
  }

  // ----------------------------------------------------------- registry

  datatype Error = KeyError(key: string) | ValueError(message: string)

  /** The registry of prototypes. */
  class Prototype {
    var objects: map<string, Website>

    constructor ()
      ensures objects == map[]
    {
      objects := map[];
    }

    /** Stores `obj` under `identifier`, replacing any earlier entry. */
    method Register(identifier: string, obj: Website)
      modifies this
      ensures objects == old(objects)[identifier := obj]
    {
      objects := objects[identifier := obj];
    }

    /** Removes the entry for `identifier`; `del` raises `KeyError` when there is none. */
    method Unregister(identifier: string) returns (r: Outcome<Error>)
      modifies this
      ensures identifier in old(objects) ==> r == Pass && objects == old(objects) - {identifier}
      ensures identifier !in old(objects) ==> r == Fail(KeyError(identifier)) && objects == old(objects)
    {
      if identifier in objects {
        objects := objects - {identifier};
        r := Pass;
      } else {
        r := Fail(KeyError(identifier));
      }
    }

    /** A deep copy of the registered website with the given attributes set
        on it; the registry and the registered website stay as they are.
        Websites are always true in a boolean test, so only a missing
        identifier makes `clone` raise its `ValueError`. */
    method Clone(identifier: string, attrs: map<string, Value>) returns (r: Result<Website, Error>)
      ensures identifier !in objects <==> r.Err?
      ensures identifier !in objects ==> r == Err(ValueError("Incorrect object identifier: " + identifier))
      ensures identifier in objects ==> r.Ok? && r.value.attrs == objects[identifier].attrs + attrs
      ensures identifier in objects ==> r.value.attrs.Keys == objects[identifier].attrs.Keys + attrs.Keys
      ensures identifier in objects ==> forall k :: k in r.value.attrs ==>
        r.value.attrs[k] == if k in attrs then attrs[k] else objects[identifier].attrs[k]
    {
      if identifier !in objects {
        return Err(ValueError("Incorrect object identifier: " + identifier));
      }
      var found := objects[identifier];
      var obj := found;
      obj := SetAttributes(obj, attrs);
      r := Ok(obj);
    }
  }

  /** The demonstration: a blog is registered and cloned into a membership
      site that overrides four attributes and adds a creation date. */
  method DemoClone() returns (site1: Website, site2: Website)
    ensures "name" in site1.attrs && site1.attrs["name"] == VStr("ContentGardening")
    ensures "creation_date" !in site1.attrs && "keywords" in site1.attrs
    ensures "name" in site2.attrs && site2.attrs["name"] == VStr("ContentGardeningPlayground")
    ensures "creation_date" in site2.attrs && site2.attrs["creation_date"] == VStr("2018-08-01")
    ensures "keywords" in site2.attrs && site2.attrs["keywords"] == site1.attrs["keywords"]
  {
    var keywords := VTuple([VStr("python"), VStr("data"), VStr("apis"), VStr("automation")]);
    var extra := map["category" := VStr("Blog"), "keywords" := keywords];
    site1 := NewWebsite(VStr("ContentGardening"), VStr("contentgardening.com"),
      VStr("Automation and data-driven apps"), VStr("Kamon Ayeva"), extra);
    var prototype := new Prototype();
    var identifier := "ka-cg-1";
    prototype.Register(identifier, site1);
    var overrides := map[
      "name" := VStr("ContentGardeningPlayground"),
      "domain" := VStr("play.contentgardening.com"),
      "description" := VStr("Experimentation for techniques featured on the blog"),
      "category" := VStr("Membership site"),
      "creation_date" := VStr("2018-08-01")];
    var cloned := prototype.Clone(identifier, overrides);
    site2 := cloned.value;
  }
}
