/**
 * The crate-to-JSON indexing of the HTML preview: value expansion, property
 * entries of an entity, the quad-tree page path, and `roCrateToJSON`.
 */
module Preview {
  import opened Wrappers
  import opened Crate

  /** The record `expandPropertyValue` builds for one value; `value` starts as "". */
  datatype Rec = Rec(value: Value, targetId: string, targetName: string, url: string, localUrl: string)

  const Blank: Rec := Rec(Text(""), "", "", "", "")

  /** `expandPropertyValue` hands "@id" and "@value" back unchanged, and records otherwise. */
  datatype Expansion = Verbatim(raw: seq<Value>) | Records(recs: seq<Rec>)

  /** `Array.prototype.join`. */
  function Join(ss: seq<string>, sep: string): (r: string)
    ensures |ss| == 1 ==> r == ss[0]
    ensures sep != "" ==> (r == "" <==> |ss| == 0 || (|ss| == 1 && ss[0] == ""))
  {
    if |ss| == 0 then ""
    else if |ss| == 1 then ss[0]
    else Join(ss[..|ss| - 1], sep) + sep + ss[|ss| - 1]
  }

  /** `target.name?.join(", ") || id` */
  function TargetName(t: Target, id: string): (n: string)
    ensures id != "" ==> n != ""
    ensures n != id ==> t.names.Some? && n == Join(t.names.value, ", ")
    ensures t.names.Some? && Join(t.names.value, ", ") != "" ==> n == Join(t.names.value, ", ")
    ensures (t.names.None? || Join(t.names.value, ", ") == "") ==> n == id
  {
    var joined := if t.names.Some? then Join(t.names.value, ", ") else "";
    if joined != "" then joined else id
  }

  /** The record for one value that is not a reference to the metadata descriptor. */
  function Classify(crate: Crate, isUrl: string -> bool, v: Value): Rec
  {
    if v.Ref? && v.id != "" then
      match crate.getEntity(v.id)
      case Some(t) => Blank.(targetId := v.id, targetName := TargetName(t, v.id))
      case None => if isUrl(v.id) then Blank.(url := v.id) else Blank.(value := v)
    else
      Blank.(value := v)
  }

  /** `returnVal.value || returnVal.target_id || returnVal.url` */
  predicate NonEmpty(r: Rec)
  {
    Truthy(r.value) || r.targetId != "" || r.url != ""
  }

  predicate Skipped(v: Value)
  {
    v.Ref? && v.id == MetadataId
  }

  predicate Kept(crate: Crate, isUrl: string -> bool, v: Value)
  {
    !Skipped(v) && NonEmpty(Classify(crate, isUrl, v))
  }

  /** The records of the kept values, in input order. */
  function ExpandValues(crate: Crate, isUrl: string -> bool, vs: seq<Value>): seq<Rec>
  {
    if vs == [] then []
    else
      var last := vs[|vs| - 1];
      ExpandValues(crate, isUrl, vs[..|vs| - 1]) + (if Kept(crate, isUrl, last) then [Classify(crate, isUrl, last)] else [])
  }

  function Expand(crate: Crate, isUrl: string -> bool, property: string, vs: seq<Value>): Expansion
  {
    if property == "@id" || property == "@value" then Verbatim(vs) else Records(ExpandValues(crate, isUrl, vs))
  }

  /** `expandPropertyValue`, with `new URL` success given as `isUrl`. */
  method ExpandPropertyValue(crate: Crate, isUrl: string -> bool, property: string, value: seq<Value>)
    returns (e: Expansion)
    ensures e == Expand(crate, isUrl, property, value)
  {
    if property == "@id" || property == "@value" {
      return Verbatim(value);
    }
    var vals: seq<Rec> := [];
    var i := 0;
    while i < |value|
      invariant 0 <= i <= |value|
      invariant vals == ExpandValues(crate, isUrl, value[..i])
    {
      var val := value[i];
      assert value[..i + 1][..i] == value[..i];
      i := i + 1;
      var returnVal := Blank;
      if val.Ref? && val.id != "" {
        if val.id == MetadataId {
          continue;
        }
        var target := crate.getEntity(val.id);
        if target.Some? {
          returnVal := returnVal.(targetId := val.id);
          var name := TargetName(target.value, val.id);
          returnVal := returnVal.(targetName := name);
        } else if isUrl(val.id) {
          returnVal := returnVal.(url := val.id);
        } else {
          returnVal := returnVal.(value := val);
        }
      } else {
        returnVal := returnVal.(value := val);
      }
      if Truthy(returnVal.value) || returnVal.targetId != "" || returnVal.url != "" {
        vals := vals + [returnVal];
      }
    }
    assert value[..|value|] == value;
    return Records(vals);
  }

  /** The positions of the kept values, in increasing order. */
  function KeptIndices(crate: Crate, isUrl: string -> bool, vs: seq<Value>): seq<nat>
  {
    if vs == [] then []
    else KeptIndices(crate, isUrl, vs[..|vs| - 1]) + (if Kept(crate, isUrl, vs[|vs| - 1]) then [|vs| - 1] else [])
  }

  /**
   * The output is an order-preserving selection of the input: record `j` is
   * the classification of the `j`-th kept value, and a value is kept exactly
   * when it is not the metadata reference and its record is not empty.
   */
  lemma {:induction false} ExpandSelects(crate: Crate, isUrl: string -> bool, vs: seq<Value>)
    ensures var out, idx := ExpandValues(crate, isUrl, vs), KeptIndices(crate, isUrl, vs);
            |out| == |idx| &&
            (forall j :: 0 <= j < |idx| ==> idx[j] < |vs| && out[j] == Classify(crate, isUrl, vs[idx[j]])) &&
            (forall j, k :: 0 <= j < k < |idx| ==> idx[j] < idx[k]) &&
            (forall i :: 0 <= i < |vs| ==> (Kept(crate, isUrl, vs[i]) <==> i in idx))
  {
    if vs != [] {
      var init := vs[..|vs| - 1];
      ExpandSelects(crate, isUrl, init);
      assert forall i :: 0 <= i < |init| ==> vs[i] == init[i];
    }
  }

  /** No record comes from, or points to, the metadata descriptor. */
  lemma {:induction false} ExpandDropsMetadata(crate: Crate, isUrl: string -> bool, vs: seq<Value>)
    ensures forall r :: r in ExpandValues(crate, isUrl, vs) ==>
              r.targetId != MetadataId && r.url != MetadataId && r.value != Ref(MetadataId)
  {
    if vs != [] {
      ExpandDropsMetadata(crate, isUrl, vs[..|vs| - 1]);
    }
  }

  /**
   * Every record is of exactly one kind: a link to an entity (with a name), an
   * external URL, or a plain value.
   */
  lemma {:induction false} ExpandRecordsOneKind(crate: Crate, isUrl: string -> bool, vs: seq<Value>)
    ensures forall r :: r in ExpandValues(crate, isUrl, vs) ==>
              NonEmpty(r) &&
              (r.targetId != "" ==> r.url == "" && !Truthy(r.value)) &&
              (r.url != "" ==> r.targetId == "" && !Truthy(r.value)) &&
              (r.targetName != "" <==> r.targetId != "") &&
              r.localUrl == ""
  {
    if vs != [] {
      ExpandRecordsOneKind(crate, isUrl, vs[..|vs| - 1]);
    }
  }

  /**
   * How a reference is classified: an entity of the crate becomes a link with
   * its joined names (or its id), else a parseable URL becomes a link out,
   * else the reference object is kept as a value.
   */
  lemma ClassifyReference(crate: Crate, isUrl: string -> bool, id: string)
    requires id != "" && id != MetadataId
    ensures var r := Classify(crate, isUrl, Ref(id));
            Kept(crate, isUrl, Ref(id)) &&
            (crate.getEntity(id).Some? ==> r.targetId == id && r.targetName == TargetName(crate.getEntity(id).value, id)) &&
            (crate.getEntity(id).None? && isUrl(id) ==> r.url == id && r.targetId == "") &&
            (crate.getEntity(id).None? && !isUrl(id) ==> r.value == Ref(id) && r.targetId == "" && r.url == "")
  {
  }

  /** A literal is kept as the record's value exactly when it is truthy. */
  lemma ClassifyLiteral(crate: Crate, isUrl: string -> bool, v: Value)
    requires !v.Ref?
    ensures Classify(crate, isUrl, v) == Blank.(value := v)
    ensures Kept(crate, isUrl, v) <==> Truthy(v)
  {
  }

  /** The entry of one property URI in an entity's `props`; `url` is `null` as `None`. */
  datatype PropEntry = PropEntry(fwd: Expansion, rev: Expansion, caption: string, url: Option<string>)

  /** `crate.resolveTerm(prop) || prop` */
  function ResolveUri(crate: Crate, prop: string): (uri: string)
    ensures crate.resolveTerm(prop) != "" ==> uri == crate.resolveTerm(prop)
    ensures crate.resolveTerm(prop) == "" ==> uri == prop
    ensures uri == "" ==> prop == ""
  {
    var r := crate.resolveTerm(prop);
    if r != "" then r else prop
  }

  /** An unresolved term has no link, an entity is linked in-page, anything else links out. */
  function PropUrl(crate: Crate, prop: string, uri: string): (u: Option<string>)
    ensures u.None? <==> uri == prop
    ensures u.Some? ==> (crate.getEntity(uri).Some? <==> u.value == "#" + uri)
    ensures u.Some? && crate.getEntity(uri).None? ==> u.value == uri
  {
    if uri == prop then None
    else if crate.getEntity(uri).Some? then Some("#" + uri)
    else Some(uri)
  }

  /** The entry `initializeProp` leaves under `uri`, given the one there before, if any. */
  function InitEntry(existing: Option<PropEntry>, crate: Crate, prop: string, uri: string): (e: PropEntry)
    ensures e.url == PropUrl(crate, prop, uri)
    ensures existing.Some? ==> e.fwd == existing.value.fwd && e.rev == existing.value.rev && e.caption == existing.value.caption
    ensures existing.None? ==> e.fwd == Records([]) && e.rev == Records([]) && e.caption == prop
  {
    var base := if existing.Some? then existing.value else PropEntry(Records([]), Records([]), prop, None);
    base.(url := PropUrl(crate, prop, uri))
  }

  function Lookup(m: map<string, PropEntry>, k: string): Option<PropEntry>
  {
    if k in m then Some(m[k]) else None
  }

  /** The object `roCrateToJSON` builds for one entity while it walks its keys. */
  class EntityLite {
    const id: string
    const types: seq<string>
    var props: map<string, PropEntry>

    constructor (id: string, types: seq<string>)
      ensures this.id == id && this.types == types && props == map[]
    {
      this.id := id;
      this.types := types;
      props := map[];
    }

    /** `entityLite.props[uri].fwd = fwd` */
    method SetFwd(uri: string, fwd: Expansion)
      requires uri in props
      modifies this
      ensures props == old(props)[uri := old(props)[uri].(fwd := fwd)]
    {
      props := props[uri := props[uri].(fwd := fwd)];
    }

    /** `entityLite.props[uri].rev = rev` */
    method SetRev(uri: string, rev: Expansion)
      requires uri in props
      modifies this
      ensures props == old(props)[uri := old(props)[uri].(rev := rev)]
    {
      props := props[uri := props[uri].(rev := rev)];
    }
  }

  /** `initializeProp` */
  method InitializeProp(crate: Crate, entityLite: EntityLite, prop: string) returns (uri: string)
    modifies entityLite
    ensures uri == ResolveUri(crate, prop)
    ensures entityLite.props == old(entityLite.props)[uri := InitEntry(Lookup(old(entityLite.props), uri), crate, prop, uri)]
  {
    uri := crate.resolveTerm(prop);
    if uri == "" {
      uri := prop;
    }
    if uri !in entityLite.props {
      entityLite.props := entityLite.props[uri := PropEntry(Records([]), Records([]), prop, None)];
    }
    var url: Option<string>;
    if uri == prop {
      url := None;
    } else if crate.getEntity(uri).Some? {
      url := Some("#" + uri);
    } else {
      url := Some(uri);
    }
    entityLite.props := entityLite.props[uri := entityLite.props[uri].(url := url)];
  }

  /** One forward key: initialise its entry, then replace its `fwd`; "@id" and "@type" are skipped. */
  function FwdStep(crate: Crate, isUrl: string -> bool, m: map<string, PropEntry>, p: Property): map<string, PropEntry>
  {
    if p.key == "@id" || p.key == "@type" then m
    else
      var uri := ResolveUri(crate, p.key);
      m[uri := InitEntry(Lookup(m, uri), crate, p.key, uri).(fwd := Expand(crate, isUrl, p.key, p.values))]
  }

  /** One reverse key: initialise its entry, then replace its `rev`. */
  function RevStep(crate: Crate, isUrl: string -> bool, m: map<string, PropEntry>, p: Property): map<string, PropEntry>
  {
    var uri := ResolveUri(crate, p.key);
    m[uri := InitEntry(Lookup(m, uri), crate, p.key, uri).(rev := Expand(crate, isUrl, p.key, p.values))]
  }

  function FwdFold(crate: Crate, isUrl: string -> bool, m: map<string, PropEntry>, ps: seq<Property>): map<string, PropEntry>
  {
    if ps == [] then m else FwdStep(crate, isUrl, FwdFold(crate, isUrl, m, ps[..|ps| - 1]), ps[|ps| - 1])
  }

  function RevFold(crate: Crate, isUrl: string -> bool, m: map<string, PropEntry>, ps: seq<Property>): map<string, PropEntry>
  {
    if ps == [] then m else RevStep(crate, isUrl, RevFold(crate, isUrl, m, ps[..|ps| - 1]), ps[|ps| - 1])
  }

  /** The `props` of an entity's preview object: forward keys first, then "@reverse" keys. */
  function EntityProps(crate: Crate, isUrl: string -> bool, e: Entity): map<string, PropEntry>
  {
    var fwd := FwdFold(crate, isUrl, map[], e.props);
    if e.reverse.Some? then RevFold(crate, isUrl, fwd, e.reverse.value) else fwd
  }

  /** What is stored under the entity's id in `ids`. */
  datatype EntityView = EntityView(id: string, types: seq<string>, props: map<string, PropEntry>)

  /** The loop over an entity's own keys. */
  method AddForward(crate: Crate, isUrl: string -> bool, entityLite: EntityLite, props: seq<Property>)
    modifies entityLite
    ensures entityLite.props == FwdFold(crate, isUrl, old(entityLite.props), props)
  {
    ghost var start := entityLite.props;
    var i := 0;
    while i < |props|
      invariant 0 <= i <= |props|
      invariant entityLite.props == FwdFold(crate, isUrl, start, props[..i])
    {
      var p := props[i];
      assert props[..i + 1][..i] == props[..i];
      if p.key != "@id" && p.key != "@type" {
        var uri := InitializeProp(crate, entityLite, p.key);
        var fwd := ExpandPropertyValue(crate, isUrl, p.key, p.values);
        entityLite.SetFwd(uri, fwd);
      }
      i := i + 1;
    }
    assert props[..|props|] == props;
  }

  /** The loop over the keys of an entity's "@reverse" object. */
  method AddReverse(crate: Crate, isUrl: string -> bool, entityLite: EntityLite, reverse: seq<Property>)
    modifies entityLite
    ensures entityLite.props == RevFold(crate, isUrl, old(entityLite.props), reverse)
  {
    ghost var start := entityLite.props;
    var j := 0;
    while j < |reverse|
      invariant 0 <= j <= |reverse|
      invariant entityLite.props == RevFold(crate, isUrl, start, reverse[..j])
    {
      var p := reverse[j];
      assert reverse[..j + 1][..j] == reverse[..j];
      var uri := InitializeProp(crate, entityLite, p.key);
      var rev := ExpandPropertyValue(crate, isUrl, p.key, p.values);
      entityLite.SetRev(uri, rev);
      j := j + 1;
    }
    assert reverse[..|reverse|] == reverse;
  }

  /** The body of the second pass for one entity, apart from the type index. */
  method BuildEntity(crate: Crate, isUrl: string -> bool, entity: Entity) returns (view: EntityView)
    ensures view == EntityView(entity.id, entity.types, EntityProps(crate, isUrl, entity))
  {
    var entityLite := new EntityLite(entity.id, entity.types);
    AddForward(crate, isUrl, entityLite, entity.props);
    if entity.reverse.Some? {
      AddReverse(crate, isUrl, entityLite, entity.reverse.value);
    }
    view := EntityView(entityLite.id, entityLite.types, entityLite.props);
  }

  /** `fwd` of a forward key's URI is the expansion of the last forward key resolving there; the reverse pass keeps it. */
  lemma EntityForwardValue(crate: Crate, isUrl: string -> bool, e: Entity, k: nat)
    requires k < |e.props| && ForwardKey(e.props[k])
    requires forall j :: k < j < |e.props| && ForwardKey(e.props[j]) ==> ResolveUri(crate, e.props[j].key) != ResolveUri(crate, e.props[k].key)
    ensures var u := ResolveUri(crate, e.props[k].key);
            u in EntityProps(crate, isUrl, e) && EntityProps(crate, isUrl, e)[u].fwd == Expand(crate, isUrl, e.props[k].key, e.props[k].values)
  {
    FwdFoldLast(crate, isUrl, e.props, k);
    if e.reverse.Some? {
      RevFoldKeepsFwd(crate, isUrl, FwdFold(crate, isUrl, map[], e.props), e.reverse.value);
    }
  }

  /** `rev` of a reverse key's URI is the expansion of the last reverse key resolving there. */
  lemma EntityReverseValue(crate: Crate, isUrl: string -> bool, e: Entity, k: nat)
    requires e.reverse.Some? && k < |e.reverse.value|
    requires forall j :: k < j < |e.reverse.value| ==> ResolveUri(crate, e.reverse.value[j].key) != ResolveUri(crate, e.reverse.value[k].key)
    ensures var p := e.reverse.value[k];
            var u := ResolveUri(crate, p.key);
            u in EntityProps(crate, isUrl, e) && EntityProps(crate, isUrl, e)[u].rev == Expand(crate, isUrl, p.key, p.values)
  {
    RevFoldLast(crate, isUrl, FwdFold(crate, isUrl, map[], e.props), e.reverse.value, k);
  }

  /** The keys that reach the forward loop body. */
  predicate ForwardKey(p: Property)
  {
    p.key != "@id" && p.key != "@type"
  }

  /** The forward pass has one entry per resolved forward key and touches no other entry. */
  lemma {:induction false} FwdFoldKeys(crate: Crate, isUrl: string -> bool, m: map<string, PropEntry>, ps: seq<Property>)
    ensures forall u :: u in FwdFold(crate, isUrl, m, ps) <==>
              u in m || exists i :: 0 <= i < |ps| && ForwardKey(ps[i]) && ResolveUri(crate, ps[i].key) == u
    ensures forall u :: u in m && (forall i :: 0 <= i < |ps| && ForwardKey(ps[i]) ==> ResolveUri(crate, ps[i].key) != u) ==>
              FwdFold(crate, isUrl, m, ps)[u] == m[u]
  {
    if ps != [] {
      var init := ps[..|ps| - 1];
      FwdFoldKeys(crate, isUrl, m, init);
      assert forall i :: 0 <= i < |init| ==> init[i] == ps[i];
    }
  }

  /**
   * The `fwd` of a resolved URI is the expansion of the last forward key that
   * resolves to it; its label is the first such key (entries are never re-created).
   */
  lemma {:induction false} FwdFoldLast(crate: Crate, isUrl: string -> bool, ps: seq<Property>, i: nat)
    requires i < |ps| && ForwardKey(ps[i])
    requires forall j :: i < j < |ps| && ForwardKey(ps[j]) ==> ResolveUri(crate, ps[j].key) != ResolveUri(crate, ps[i].key)
    ensures var m := FwdFold(crate, isUrl, map[], ps);
            var u := ResolveUri(crate, ps[i].key);
            u in m && m[u].fwd == Expand(crate, isUrl, ps[i].key, ps[i].values) && m[u].rev == Records([])
  {
    var init := ps[..|ps| - 1];
    if i < |ps| - 1 {
      FwdFoldLast(crate, isUrl, init, i);
    } else {
      FwdRevEmpty(crate, isUrl, init);
    }
  }

  /** The forward pass leaves every `rev` empty. */
  lemma {:induction false} FwdRevEmpty(crate: Crate, isUrl: string -> bool, ps: seq<Property>)
    ensures forall u :: u in FwdFold(crate, isUrl, map[], ps) ==> FwdFold(crate, isUrl, map[], ps)[u].rev == Records([])
  {
    if ps != [] {
      FwdRevEmpty(crate, isUrl, ps[..|ps| - 1]);
    }
  }

  /** The label of an entry is the first key that resolved to its URI. */
  lemma {:induction false} FwdFoldLabel(crate: Crate, isUrl: string -> bool, ps: seq<Property>, i: nat)
    requires i < |ps| && ForwardKey(ps[i])
    requires forall j :: 0 <= j < i && ForwardKey(ps[j]) ==> ResolveUri(crate, ps[j].key) != ResolveUri(crate, ps[i].key)
    ensures var m := FwdFold(crate, isUrl, map[], ps);
            var u := ResolveUri(crate, ps[i].key);
            u in m && m[u].caption == ps[i].key
    decreases |ps|
  {
    var init := ps[..|ps| - 1];
    FwdFoldKeys(crate, isUrl, map[], init);
    FwdFoldKeys(crate, isUrl, map[], ps);
    if i < |ps| - 1 {
      FwdFoldLabel(crate, isUrl, init, i);
    } else {
      assert forall j :: 0 <= j < |init| ==> init[j] == ps[j];
    }
  }

  /** The reverse pass changes only `rev` (and the link) of existing entries: every `fwd` survives. */
  lemma {:induction false} RevFoldKeepsFwd(crate: Crate, isUrl: string -> bool, m: map<string, PropEntry>, ps: seq<Property>)
    ensures forall u :: u in m ==> u in RevFold(crate, isUrl, m, ps) && RevFold(crate, isUrl, m, ps)[u].fwd == m[u].fwd
  {
    if ps != [] {
      RevFoldKeepsFwd(crate, isUrl, m, ps[..|ps| - 1]);
    }
  }

  /** The `rev` of a reverse key's URI is the expansion of the last reverse key resolving to it. */
  lemma {:induction false} RevFoldLast(crate: Crate, isUrl: string -> bool, m: map<string, PropEntry>, ps: seq<Property>, i: nat)
    requires i < |ps|
    requires forall j :: i < j < |ps| ==> ResolveUri(crate, ps[j].key) != ResolveUri(crate, ps[i].key)
    ensures var r := RevFold(crate, isUrl, m, ps);
            var u := ResolveUri(crate, ps[i].key);
            u in r && r[u].rev == Expand(crate, isUrl, ps[i].key, ps[i].values)
  {
    if i < |ps| - 1 {
      RevFoldLast(crate, isUrl, m, ps[..|ps| - 1], i);
    }
  }

  /** Without "@reverse" every entry has an empty `rev`. */
  lemma NoReverseNoRev(crate: Crate, isUrl: string -> bool, e: Entity)
    requires e.reverse.None?
    ensures forall u :: u in EntityProps(crate, isUrl, e) ==> EntityProps(crate, isUrl, e)[u].rev == Records([])
  {
    FwdRevEmpty(crate, isUrl, e.props);
  }

  // ----- quadTreeId -----

  predicate IsHexDigit(c: char)
  {
    '0' <= c <= '9' || 'a' <= c <= 'f'
  }

  /** A hex MD5 digest: 32 lower-case hexadecimal characters. */
  type Digest = s: string | |s| == 32 && forall i :: 0 <= i < |s| ==> IsHexDigit(s[i])
    witness "00000000000000000000000000000000"

  /** `quadTreeId`: the digest of the id cut into four directories of eight characters. */
  function QuadTreeId(md5: string -> Digest, id: string): (path: string)
    ensures |path| == 46
    ensures path[8] == '/' && path[17] == '/' && path[26] == '/'
    ensures path[35..] == "/index.html"
    ensures path[..8] + path[9..17] + path[18..26] + path[27..35] == md5(id)
  {
    var d := md5(id);
    var path := d[0..8] + "/" + d[8..16] + "/" + d[16..24] + "/" + d[24..32] + "/index.html";
    assert path[..8] == d[0..8] && path[9..17] == d[8..16] && path[18..26] == d[16..24] && path[27..35] == d[24..32];
    assert d == d[0..8] + d[8..16] + d[16..24] + d[24..32];
    path
  }

  /** Two ids share a page path exactly when their digests agree. */
  lemma QuadTreeIdInjective(md5: string -> Digest, a: string, b: string)
    ensures QuadTreeId(md5, a) == QuadTreeId(md5, b) <==> md5(a) == md5(b)
  {
    var pa, pb := QuadTreeId(md5, a), QuadTreeId(md5, b);
    if pa == pb {
      assert pa[..8] + pa[9..17] + pa[18..26] + pa[27..35] == pb[..8] + pb[9..17] + pb[18..26] + pb[27..35];
    }
  }

  // ----- pages -----

  /** `multiPageConfig`: the root template and, per configured type, its template. */
  datatype PageConfig = PageConfig(rootTemplate: string, typeTemplates: map<string, string>)

  datatype Page = Page(path: string, template: string)

  const RootPath: string := "ro-crate-preview.html"
  const PagesDir: string := "ro-crate-preview_html/"

  /** The position of the first type in `types` that the configuration has a template for. */
  function FirstConfigured(types: seq<string>, config: PageConfig): (k: Option<nat>)
    ensures k.Some? ==> k.value < |types| && types[k.value] in config.typeTemplates
    ensures forall j :: 0 <= j < |types| && (k.None? || j < k.value) ==> types[j] !in config.typeTemplates
  {
    if types == [] then None
    else if types[0] in config.typeTemplates then Some(0)
    else
      var rest := FirstConfigured(types[1..], config);
      assert forall j :: 1 <= j < |types| ==> types[j] == types[1..][j - 1];
      if rest.Some? then Some(rest.value + 1) else None
  }

  /** The page an entity gets, if one of its types is configured. */
  function EntityPage(config: PageConfig, md5: string -> Digest, e: Entity): Option<Page>
  {
    var k := FirstConfigured(e.types, config);
    if k.Some? then Some(Page(PagesDir + QuadTreeId(md5, e.id), config.typeTemplates[e.types[k.value]])) else None
  }

  function PagesUpTo(config: PageConfig, md5: string -> Digest, pages: map<string, Page>, es: seq<Entity>): map<string, Page>
  {
    if es == [] then pages
    else
      var before := PagesUpTo(config, md5, pages, es[..|es| - 1]);
      var e := es[|es| - 1];
      var page := EntityPage(config, md5, e);
      if page.Some? then before[e.id := page.value] else before
  }

  /** The `pages` dictionary: empty without a configuration, else the root page and then one page per configured entity. */
  function PagesOf(crate: Crate, config: Option<PageConfig>, md5: string -> Digest): map<string, Page>
  {
    if config.None? then map[]
    else PagesUpTo(config.value, md5, map[crate.rootId := Page(RootPath, config.value.rootTemplate)], crate.entities)
  }

  /** The first pass of `roCrateToJSON`, with its inner loop that stops at the first configured type. */
  method BuildPages(crate: Crate, config: PageConfig, md5: string -> Digest) returns (pages: map<string, Page>)
    ensures pages == PagesOf(crate, Some(config), md5)
  {
    var es := crate.entities;
    var start := map[crate.rootId := Page(RootPath, config.rootTemplate)];
    pages := start;
    var i := 0;
    while i < |es|
      invariant 0 <= i <= |es|
      invariant pages == PagesUpTo(config, md5, start, es[..i])
    {
      var entity := es[i];
      assert es[..i + 1][..i] == es[..i];
      ghost var before := pages;
      var j := 0;
      while j < |entity.types|
        invariant 0 <= j <= |entity.types|
        invariant forall l :: 0 <= l < j ==> entity.types[l] !in config.typeTemplates
        invariant pages == before
      {
        var t := entity.types[j];
        if t in config.typeTemplates {
          pages := pages[entity.id := Page(PagesDir + QuadTreeId(md5, entity.id), config.typeTemplates[t])];
          break;
        }
        j := j + 1;
      }
      assert j < |entity.types| ==> FirstConfigured(entity.types, config) == Some(j);
      i := i + 1;
    }
    assert es[..|es|] == es;
  }

  /** Which ids have a page: the root, and every entity with a configured type. */
  lemma {:induction false} PagesKeys(config: PageConfig, md5: string -> Digest, pages: map<string, Page>, es: seq<Entity>)
    ensures forall x :: x in PagesUpTo(config, md5, pages, es) <==>
              x in pages || exists i :: 0 <= i < |es| && es[i].id == x && EntityPage(config, md5, es[i]).Some?
  {
    if es != [] {
      var init := es[..|es| - 1];
      PagesKeys(config, md5, pages, init);
      assert forall i :: 0 <= i < |init| ==> init[i] == es[i];
    }
  }

  /** Which page an id ends up with: that of the last entity carrying it that has one, else the page it started with. */
  lemma {:induction false} PagesLast(config: PageConfig, md5: string -> Digest, pages: map<string, Page>, es: seq<Entity>, x: string)
    ensures (forall i :: 0 <= i < |es| && es[i].id == x ==> EntityPage(config, md5, es[i]).None?) && x in pages ==>
              x in PagesUpTo(config, md5, pages, es) && PagesUpTo(config, md5, pages, es)[x] == pages[x]
    ensures forall i :: 0 <= i < |es| && es[i].id == x && EntityPage(config, md5, es[i]).Some? &&
                        (forall j :: i < j < |es| && es[j].id == x ==> EntityPage(config, md5, es[j]).None?) ==>
              x in PagesUpTo(config, md5, pages, es) && PagesUpTo(config, md5, pages, es)[x] == EntityPage(config, md5, es[i]).value
  {
    if es != [] {
      var init := es[..|es| - 1];
      PagesLast(config, md5, pages, init, x);
      assert forall i :: 0 <= i < |init| ==> init[i] == es[i];
    }
  }

  /** Without a configuration no page is generated. */
  lemma NoConfigNoPages(crate: Crate, md5: string -> Digest)
    ensures PagesOf(crate, None, md5) == map[]
  {
  }

  /** The root keeps "ro-crate-preview.html" with the root template unless the root entity itself has a configured type. */
  lemma RootPage(crate: Crate, config: PageConfig, md5: string -> Digest)
    requires forall i :: 0 <= i < |crate.entities| && crate.entities[i].id == crate.rootId ==>
               FirstConfigured(crate.entities[i].types, config).None?
    ensures crate.rootId in PagesOf(crate, Some(config), md5)
    ensures PagesOf(crate, Some(config), md5)[crate.rootId] == Page(RootPath, config.rootTemplate)
  {
    PagesLast(config, md5, map[crate.rootId := Page(RootPath, config.rootTemplate)], crate.entities, crate.rootId);
  }

  /**
   * In a crate with one entity per id, an entity with a configured type gets
   * "ro-crate-preview_html/" + its quad-tree path, with the template of its
   * first configured type; an entity with no configured type (other than the
   * root) gets no page.
   */
  lemma ConfiguredEntityPage(crate: Crate, config: PageConfig, md5: string -> Digest, i: nat)
    requires UniqueIds(crate) && i < |crate.entities|
    ensures var e := crate.entities[i];
            var pages := PagesOf(crate, Some(config), md5);
            var k := FirstConfigured(e.types, config);
            (k.Some? ==> e.id in pages && pages[e.id] == Page(PagesDir + QuadTreeId(md5, e.id), config.typeTemplates[e.types[k.value]])) &&
            (k.None? && e.id != crate.rootId ==> e.id !in pages)
  {
    var es := crate.entities;
    var start := map[crate.rootId := Page(RootPath, config.rootTemplate)];
    PagesLast(config, md5, start, es, es[i].id);
    PagesKeys(config, md5, start, es);
  }

  // ----- types and typeUrls -----

  /** `typeUrls[t]`: the resolved term, or the literal "type" when it does not resolve. */
  function TypeUrl(crate: Crate, t: string): (u: string)
    ensures u != ""
    ensures crate.resolveTerm(t) != "" ==> u == crate.resolveTerm(t)
    ensures crate.resolveTerm(t) == "" ==> u == "type"
  {
    if crate.resolveTerm(t) != "" then crate.resolveTerm(t) else "type"
  }

  /** The `types` and `typeUrls` dictionaries. */
  datatype TypeIndex = TypeIndex(types: map<string, seq<string>>, urls: map<string, string>)

  /** One iteration of the type loop: a type seen for the first time gets an empty list and its URL. */
  function AddType(crate: Crate, idx: TypeIndex, t: string, id: string): TypeIndex
  {
    if t in idx.types then idx.(types := idx.types[t := idx.types[t] + [id]])
    else TypeIndex(idx.types[t := [id]], idx.urls[t := TypeUrl(crate, t)])
  }

  function AddTypes(crate: Crate, idx: TypeIndex, ts: seq<string>, id: string): TypeIndex
  {
    if ts == [] then idx else AddType(crate, AddTypes(crate, idx, ts[..|ts| - 1], id), ts[|ts| - 1], id)
  }

  function TypesUpTo(crate: Crate, es: seq<Entity>): TypeIndex
  {
    if es == [] then TypeIndex(map[], map[])
    else
      var e := es[|es| - 1];
      AddTypes(crate, TypesUpTo(crate, es[..|es| - 1]), e.types, e.id)
  }

  /** The inner type loop for one entity. */
  method IndexTypes(crate: Crate, types: map<string, seq<string>>, typeUrls: map<string, string>, ts: seq<string>, id: string)
    returns (types': map<string, seq<string>>, typeUrls': map<string, string>)
    ensures TypeIndex(types', typeUrls') == AddTypes(crate, TypeIndex(types, typeUrls), ts, id)
  {
    types', typeUrls' := types, typeUrls;
    var j := 0;
    while j < |ts|
      invariant 0 <= j <= |ts|
      invariant TypeIndex(types', typeUrls') == AddTypes(crate, TypeIndex(types, typeUrls), ts[..j], id)
    {
      var t := ts[j];
      assert ts[..j + 1][..j] == ts[..j];
      ghost var before := types';
      if t !in types' {
        types' := types'[t := []];
        typeUrls' := typeUrls'[t := TypeUrl(crate, t)];
      }
      types' := types'[t := types'[t] + [id]];
      if t !in before {
        assert [] + [id] == [id];
        assert types' == before[t := [id]];
      }
      j := j + 1;
    }
    assert ts[..|ts|] == ts;
  }

  /** The id repeated once per occurrence of `t` in `ts`. */
  function Matching(ts: seq<string>, t: string, id: string): (r: seq<string>)
    ensures forall x :: x in r <==> x == id && t in ts
  {
    if ts == [] then []
    else Matching(ts[..|ts| - 1], t, id) + (if ts[|ts| - 1] == t then [id] else [])
  }

  /** Reference definition: the ids of the entities of type `t`, in entity order, once per listing. */
  function IdsOfType(es: seq<Entity>, t: string): (r: seq<string>)
    ensures forall x :: x in r <==> exists i :: 0 <= i < |es| && es[i].id == x && t in es[i].types
  {
    if es == [] then []
    else
      var init := es[..|es| - 1];
      var r := IdsOfType(init, t) + Matching(es[|es| - 1].types, t, es[|es| - 1].id);
      assert forall i :: 0 <= i < |init| ==> init[i] == es[i];
      r
  }

  /** Every type has a URL and every URL a type; the URL depends on the type alone. */
  predicate IndexInv(crate: Crate, idx: TypeIndex)
  {
    idx.types.Keys == idx.urls.Keys && forall t :: t in idx.urls ==> idx.urls[t] == TypeUrl(crate, t)
  }

  lemma MatchingEmpty(ts: seq<string>, t: string, id: string)
    ensures t !in ts <==> Matching(ts, t, id) == []
  {
    if t in ts {
      assert id in Matching(ts, t, id);
    }
  }

  /** What one call of the inner type loop does to the index. */
  lemma AddTypesFacts(crate: Crate, idx: TypeIndex, ts: seq<string>, id: string)
    requires IndexInv(crate, idx)
    ensures IndexInv(crate, AddTypes(crate, idx, ts, id))
    ensures forall t :: t in AddTypes(crate, idx, ts, id).types <==> t in idx.types || t in ts
    ensures forall t :: t in AddTypes(crate, idx, ts, id).types ==>
              AddTypes(crate, idx, ts, id).types[t] == (if t in idx.types then idx.types[t] else []) + Matching(ts, t, id)
  {
    AddTypesKeys(crate, idx, ts, id);
    AddTypesLists(crate, idx, ts, id);
  }

  /** The type loop keeps URLs in step with keys, and adds exactly the entity's types as keys. */
  lemma {:induction false} AddTypesKeys(crate: Crate, idx: TypeIndex, ts: seq<string>, id: string)
    ensures IndexInv(crate, idx) ==> IndexInv(crate, AddTypes(crate, idx, ts, id))
    ensures AddTypes(crate, idx, ts, id).types.Keys == idx.types.Keys + set t | t in ts
  {
    if ts != [] {
      var init, last := ts[..|ts| - 1], ts[|ts| - 1];
      AddTypesKeys(crate, idx, init, id);
      AddTypeStep(crate, AddTypes(crate, idx, init, id), last, id);
      assert (set t | t in ts) == (set t | t in init) + {last} by {
        assert ts == init + [last];
      }
    }
  }

  /** The type loop appends the id to a type's list once per listing of that type. */
  lemma {:induction false} AddTypesLists(crate: Crate, idx: TypeIndex, ts: seq<string>, id: string)
    ensures forall t :: t in AddTypes(crate, idx, ts, id).types ==>
              AddTypes(crate, idx, ts, id).types[t] == (if t in idx.types then idx.types[t] else []) + Matching(ts, t, id)
  {
    if ts != [] {
      var init, last := ts[..|ts| - 1], ts[|ts| - 1];
      AddTypesLists(crate, idx, init, id);
      AddTypesKeys(crate, idx, init, id);
      var mid := AddTypes(crate, idx, init, id);
      AddTypeStep(crate, mid, last, id);
      forall t | t in AddTypes(crate, idx, ts, id).types
        ensures AddTypes(crate, idx, ts, id).types[t] == (if t in idx.types then idx.types[t] else []) + Matching(ts, t, id)
      {
        assert Matching(ts, t, id) == Matching(init, t, id) + (if last == t then [id] else []);
        if t == last && t !in mid.types {
          assert t !in init;
          MatchingEmpty(init, t, id);
        }
      }
    }
  }

  /** One iteration of the type loop: `t0` gains the id, every other list is kept. */
  lemma AddTypeStep(crate: Crate, idx: TypeIndex, t0: string, id: string)
    ensures var out := AddType(crate, idx, t0, id);
            (IndexInv(crate, idx) ==> IndexInv(crate, out)) &&
            out.types.Keys == idx.types.Keys + {t0} &&
            out.types[t0] == (if t0 in idx.types then idx.types[t0] else []) + [id] &&
            forall t :: t in idx.types && t != t0 ==> out.types[t] == idx.types[t]
  {
    if t0 !in idx.types {
      assert [] + [id] == [id];
    }
  }

  /** The ids of one entity that a type's list gains, as the reference definition has them. */
  lemma IdsOfTypeLast(es: seq<Entity>, t: string)
    requires es != []
    ensures IdsOfType(es, t) == IdsOfType(es[..|es| - 1], t) + Matching(es[|es| - 1].types, t, es[|es| - 1].id)
  {
  }

  /**
   * `types` lists, for every type that occurs, the ids of its entities in
   * entity order (once per listing); a type is a key exactly when some entity
   * has it, and `typeUrls` has the same keys, each mapped to its resolved URL.
   */
  lemma {:induction false} TypesIndexed(crate: Crate, es: seq<Entity>)
    ensures IndexInv(crate, TypesUpTo(crate, es))
    ensures forall t :: t in TypesUpTo(crate, es).types <==> IdsOfType(es, t) != []
    ensures forall t :: t in TypesUpTo(crate, es).types ==> TypesUpTo(crate, es).types[t] == IdsOfType(es, t)
  {
    if es != [] {
      var init := es[..|es| - 1];
      var e := es[|es| - 1];
      TypesIndexed(crate, init);
      var mid := TypesUpTo(crate, init);
      var out := TypesUpTo(crate, es);
      assert out == AddTypes(crate, mid, e.types, e.id);
      AddTypesFacts(crate, mid, e.types, e.id);
      forall t
        ensures t in out.types <==> IdsOfType(es, t) != []
        ensures t in out.types ==> out.types[t] == IdsOfType(es, t)
      {
        IdsOfTypeLast(es, t);
        MatchingEmpty(e.types, t, e.id);
      }
    }
  }

  // ----- ids -----

  function IdsUpTo(crate: Crate, isUrl: string -> bool, es: seq<Entity>): map<string, EntityView>
  {
    if es == [] then map[]
    else
      var e := es[|es| - 1];
      IdsUpTo(crate, isUrl, es[..|es| - 1])[e.id := EntityView(e.id, e.types, EntityProps(crate, isUrl, e))]
  }

  /** Every entity id is a key of `ids`, and nothing else is. */
  lemma {:induction false} IdsKeys(crate: Crate, isUrl: string -> bool, es: seq<Entity>)
    ensures forall x :: x in IdsUpTo(crate, isUrl, es) <==> exists i :: 0 <= i < |es| && es[i].id == x
  {
    if es != [] {
      var init := es[..|es| - 1];
      IdsKeys(crate, isUrl, init);
      forall x | x in IdsUpTo(crate, isUrl, es)
        ensures exists i :: 0 <= i < |es| && es[i].id == x
      {
        if x != es[|es| - 1].id {
          assert x in IdsUpTo(crate, isUrl, init);
          var i :| 0 <= i < |init| && init[i].id == x;
          assert es[i] == init[i];
        }
      }
      forall x | exists i :: 0 <= i < |es| && es[i].id == x
        ensures x in IdsUpTo(crate, isUrl, es)
      {
        var i :| 0 <= i < |es| && es[i].id == x;
        if i < |es| - 1 {
          assert init[i] == es[i];
        }
      }
    }
  }

  /** An entity is stored in `ids` as it was built, unless a later entity has the same id. */
  lemma {:induction false} IdsLast(crate: Crate, isUrl: string -> bool, es: seq<Entity>, i: nat)
    requires i < |es|
    requires forall j :: i < j < |es| ==> es[j].id != es[i].id
    ensures es[i].id in IdsUpTo(crate, isUrl, es)
    ensures IdsUpTo(crate, isUrl, es)[es[i].id] == EntityView(es[i].id, es[i].types, EntityProps(crate, isUrl, es[i]))
  {
    if i < |es| - 1 {
      var init := es[..|es| - 1];
      assert init[i] == es[i];
      IdsLast(crate, isUrl, init, i);
    }
  }

  // ----- roCrateToJSON -----

  /** The object `roCrateToJSON` resolves to. */
  datatype CrateLite = CrateLite(
    entryPoint: string,
    pages: map<string, Page>,
    ids: map<string, EntityView>,
    types: map<string, seq<string>>,
    typeUrls: map<string, string>)

  function CrateToJson(crate: Crate, config: Option<PageConfig>, md5: string -> Digest, isUrl: string -> bool): CrateLite
  {
    var idx := TypesUpTo(crate, crate.entities);
    CrateLite(crate.rootId, PagesOf(crate, config, md5), IdsUpTo(crate, isUrl, crate.entities), idx.types, idx.urls)
  }

  /** `roCrateToJSON`: the page pass, then one pass filling `types`, `typeUrls` and `ids`. */
  method RoCrateToJSON(crate: Crate, multiPageConfig: Option<PageConfig>, md5: string -> Digest, isUrl: string -> bool)
    returns (crateLite: CrateLite)
    ensures crateLite == CrateToJson(crate, multiPageConfig, md5, isUrl)
  {
    var pages: map<string, Page> := map[];
    if multiPageConfig.Some? {
      pages := BuildPages(crate, multiPageConfig.value, md5);
    }
    var es := crate.entities;
    var ids: map<string, EntityView> := map[];
    var types: map<string, seq<string>> := map[];
    var typeUrls: map<string, string> := map[];
    var i := 0;
    while i < |es|
      invariant 0 <= i <= |es|
      invariant ids == IdsUpTo(crate, isUrl, es[..i])
      invariant TypeIndex(types, typeUrls) == TypesUpTo(crate, es[..i])
    {
      var entity := es[i];
      assert es[..i + 1][..i] == es[..i];
      types, typeUrls := IndexTypes(crate, types, typeUrls, entity.types, entity.id);
      var entityLite := BuildEntity(crate, isUrl, entity);
      ids := ids[entity.id := entityLite];
      i := i + 1;
    }
    assert es[..|es|] == es;
    crateLite := CrateLite(crate.rootId, pages, ids, types, typeUrls);
  }

  /** The entry point is the root dataset id, and it is in `ids` whenever the root is one of the entities. */
  lemma EntryPointIndexed(crate: Crate, config: Option<PageConfig>, md5: string -> Digest, isUrl: string -> bool)
    requires exists i :: 0 <= i < |crate.entities| && crate.entities[i].id == crate.rootId
    ensures CrateToJson(crate, config, md5, isUrl).entryPoint == crate.rootId
    ensures crate.rootId in CrateToJson(crate, config, md5, isUrl).ids
  {
    IdsKeys(crate, isUrl, crate.entities);
  }

  /** With one entity per id, `ids` holds each entity's id, type list and property entries. */
  lemma EntityIndexed(crate: Crate, config: Option<PageConfig>, md5: string -> Digest, isUrl: string -> bool, i: nat)
    requires UniqueIds(crate) && i < |crate.entities|
    ensures var e := crate.entities[i];
            var ids := CrateToJson(crate, config, md5, isUrl).ids;
            e.id in ids && ids[e.id] == EntityView(e.id, e.types, EntityProps(crate, isUrl, e))
  {
    IdsLast(crate, isUrl, crate.entities, i);
  }
}
