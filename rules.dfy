/**
 What each validator of main.go does to the error list, as a function: it
 takes the list built so far and gives it back with the validator's errors
 appended, in the order the validator appends them. The imperative
 validators in module Validator are proved to leave exactly these lists;
 the lemmas in module Properties state what the lists mean.
 */
module Rules {
  import opened Wrappers
  import opened Yaml
  import opened Text
  import opened Patterns
  import opened Report

  /** The word expectType uses for a kind; a kind it has no word for is a "value". */
  function KindName(kind: Kind): string
  {
    match kind
    case ScalarKind => "string"
    case MappingKind => "object"
    case SequenceKind => "list"
    case _ => "value"
  }

  /**
   expectType: nothing when the node is present and of the kind, otherwise
   the one error "<field> must be <kind name>" at the node's line.
   */
  function ExpectTypeErrors(node: Option<Node>, kind: Kind, field: string): (r: seq<ValidationError>)
    ensures r == [] <==> node.Some? && node.value.kind == kind
    ensures |r| <= 1
    ensures r != [] ==> r[0] == ValidationError(NodeLine(node), MustBe(field, KindName(kind)))
  {
    if node.None? || node.value.kind != kind then
      [ValidationError(NodeLine(node), MustBe(field, KindName(kind)))]
    else
      []
  }

  // ---------------------------------------------------------------------
  // validateTop

  /** A required scalar field that must hold exactly `want` (apiVersion, kind). */
  function AppendFixedValue(errs: seq<ValidationError>, n: Option<Node>, field: string, want: string)
    : seq<ValidationError>
  {
    match n
    case None => errs + [ValidationError(0, Required(field))]
    case Some(v) =>
      var e := errs + ExpectTypeErrors(n, ScalarKind, field);
      if v.kind == ScalarKind && v.value != want then e + [ValidationError(v.line, Unsupported(field, v.value))]
      else e
  }

  /** The required metadata mapping, checked further when it is a mapping. */
  function AppendMetadataField(errs: seq<ValidationError>, n: Option<Node>): seq<ValidationError>
  {
    match n
    case None => errs + [ValidationError(0, Required("metadata"))]
    case Some(m) =>
      var e := errs + ExpectTypeErrors(n, MappingKind, "metadata");
      if m.kind == MappingKind then AppendObjectMeta(e, m) else e
  }

  /** The required spec mapping, checked further when it is a mapping. */
  function AppendSpecField(errs: seq<ValidationError>, n: Option<Node>): seq<ValidationError>
  {
    match n
    case None => errs + [ValidationError(0, Required("spec"))]
    case Some(s) =>
      var e := errs + ExpectTypeErrors(n, MappingKind, "spec");
      if s.kind == MappingKind then AppendPodSpec(e, s) else e
  }

  /** apiVersion, kind, metadata and spec, in that order, each whatever became of the others. */
  function AppendTop(errs: seq<ValidationError>, top: Node): seq<ValidationError>
  {
    var e1 := AppendFixedValue(errs, Lookup(top, "apiVersion"), "apiVersion", "v1");
    var e2 := AppendFixedValue(e1, Lookup(top, "kind"), "kind", "Pod");
    var e3 := AppendMetadataField(e2, Lookup(top, "metadata"));
    AppendSpecField(e3, Lookup(top, "spec"))
  }

  // ---------------------------------------------------------------------
  // validateObjectMeta

  function AppendMetaName(errs: seq<ValidationError>, n: Option<Node>): seq<ValidationError>
  {
    match n
    case None => errs + [ValidationError(0, Required("metadata.name"))]
    case Some(v) =>
      var e := errs + ExpectTypeErrors(n, ScalarKind, "metadata.name");
      if v.kind == ScalarKind && IsBlank(v.value) then e + [ValidationError(v.line, Required("name"))] else e
  }

  function AppendNamespace(errs: seq<ValidationError>, n: Option<Node>): seq<ValidationError>
  {
    if n.None? then errs else errs + ExpectTypeErrors(n, ScalarKind, "metadata.namespace")
  }

  /**
   The first even position at or after `i` whose value, which must exist,
   is not a scalar.
   */
  function FirstNonScalarLabel(c: seq<Node>, i: nat): (r: Option<nat>)
    ensures r.Some? ==> i <= r.value && r.value + 1 < |c|
    decreases |c| - i
  {
    if i + 1 < |c| then
      if c[i + 1].kind != ScalarKind then Some(i) else FirstNonScalarLabel(c, i + 2)
    else
      None
  }

  /** Labels must map to scalars; only the first offending value is reported. */
  function AppendLabels(errs: seq<ValidationError>, n: Option<Node>): seq<ValidationError>
  {
    match n
    case None => errs
    case Some(l) =>
      var e := errs + ExpectTypeErrors(n, MappingKind, "metadata.labels");
      if l.kind != MappingKind then e
      else
        match FirstNonScalarLabel(l.content, 0)
        case None => e
        case Some(j) => e + [ValidationError(l.content[j + 1].line, InvalidFormat("metadata.labels", ""))]
  }

  function AppendObjectMeta(errs: seq<ValidationError>, meta: Node): seq<ValidationError>
  {
    var e1 := AppendMetaName(errs, Lookup(meta, "name"));
    var e2 := AppendNamespace(e1, Lookup(meta, "namespace"));
    AppendLabels(e2, Lookup(meta, "labels"))
  }

  // ---------------------------------------------------------------------
  // validatePodSpec and validateOSName

  /** The OS names accepted, compared after lower-casing. */
  predicate OsAccepted(v: string)
  {
    ToLower(v) == "linux" || ToLower(v) == "windows"
  }

  function AppendOsName(errs: seq<ValidationError>, n: Node): seq<ValidationError>
  {
    if OsAccepted(n.value) then errs else errs + [ValidationError(n.line, Unsupported("os", n.value))]
  }

  /** The optional os: a scalar name, or a mapping with a required scalar name. */
  function AppendOs(errs: seq<ValidationError>, n: Option<Node>): seq<ValidationError>
  {
    match n
    case None => errs
    case Some(o) =>
      match o.kind
      case ScalarKind => AppendOsName(errs, o)
      case MappingKind =>
        var name := Lookup(o, "name");
        if name.None? then errs + [ValidationError(0, Required("spec.os.name"))]
        else
          var e := errs + ExpectTypeErrors(name, ScalarKind, "spec.os.name");
          if name.value.kind == ScalarKind then AppendOsName(e, name.value) else e
      case _ => errs + [ValidationError(o.line, MustBe("spec.os", "object"))]
  }

  /** The name node of a container when it is a scalar: the names the duplicate check compares. */
  function ScalarName(item: Node): (r: Option<Node>)
    ensures r.Some? ==> item.kind == MappingKind && r.value.kind == ScalarKind
  {
    var n := Lookup(item, "name");
    if n.Some? && n.value.kind == ScalarKind then n else None
  }

  /** Some container before position `j` has the scalar name `v`. */
  predicate NameUsedBefore(items: seq<Node>, j: int, v: string)
    requires j <= |items|
  {
    exists i :: 0 <= i < j && ScalarName(items[i]).Some? && ScalarName(items[i]).value.value == v
  }

  /** The names used before `j + 1` are those used before `j` and the scalar name of item `j`. */
  lemma NameUsedBeforeNext(items: seq<Node>, j: nat)
    requires j < |items|
    ensures forall v :: NameUsedBefore(items, j + 1, v) <==>
                          NameUsedBefore(items, j, v) || (ScalarName(items[j]).Some? && ScalarName(items[j]).value.value == v)
  {
    forall v | NameUsedBefore(items, j + 1, v) && !NameUsedBefore(items, j, v)
      ensures ScalarName(items[j]).Some? && ScalarName(items[j]).value.value == v
    {
      var i :| 0 <= i < j + 1 && ScalarName(items[i]).Some? && ScalarName(items[i]).value.value == v;
      assert i == j;
    }
  }

  /**
   One item of the containers list: a non-mapping item is reported and
   skipped; a container is validated, and then its scalar name is reported
   again when an earlier container had the same one.
   */
  function AppendContainerItem(errs: seq<ValidationError>, items: seq<Node>, j: nat): seq<ValidationError>
    requires j < |items|
  {
    if items[j].kind != MappingKind then
      errs + [ValidationError(items[j].line, MustBe("spec.containers", "array"))]
    else
      var e := AppendContainer(errs, items[j]);
      match ScalarName(items[j])
      case None => e
      case Some(n) =>
        if NameUsedBefore(items, j, n.value)
        then e + [ValidationError(n.line, InvalidFormat("containers.name", n.value))] else e
  }

  /** The first `j` items of the containers list, in order. */
  function AppendContainerItems(errs: seq<ValidationError>, items: seq<Node>, j: nat): seq<ValidationError>
    requires j <= |items|
  {
    if j == 0 then errs else AppendContainerItem(AppendContainerItems(errs, items, j - 1), items, j - 1)
  }

  function AppendContainersField(errs: seq<ValidationError>, n: Option<Node>): seq<ValidationError>
  {
    match n
    case None => errs + [ValidationError(0, Required("spec.containers"))]
    case Some(c) =>
      var e := errs + ExpectTypeErrors(n, SequenceKind, "spec.containers");
      if c.kind == SequenceKind then AppendContainerItems(e, c.content, |c.content|) else e
  }

  function AppendPodSpec(errs: seq<ValidationError>, spec: Node): seq<ValidationError>
  {
    AppendContainersField(AppendOs(errs, Lookup(spec, "os")), Lookup(spec, "containers"))
  }

  // ---------------------------------------------------------------------
  // validateContainer

  function AppendContainerName(errs: seq<ValidationError>, n: Option<Node>): seq<ValidationError>
  {
    match n
    case None => errs + [ValidationError(0, Required("name"))]
    case Some(v) =>
      var e := errs + ExpectTypeErrors(n, ScalarKind, "name");
      if v.kind != ScalarKind then e
      else if IsBlank(v.value) then e + [ValidationError(v.line, Required("name"))]
      else if !SnakeCase(v.value) then e + [ValidationError(v.line, InvalidFormat("containers.name", v.value))]
      else e
  }

  function AppendImage(errs: seq<ValidationError>, n: Option<Node>): seq<ValidationError>
  {
    match n
    case None => errs + [ValidationError(0, Required("containers.image"))]
    case Some(v) =>
      var e := errs + ExpectTypeErrors(n, ScalarKind, "containers.image");
      if v.kind == ScalarKind && !ImageRef(v.value)
      then e + [ValidationError(v.line, InvalidFormat("containers.image", v.value))] else e
  }

  /** One item of a ports list: a non-mapping item is reported and skipped. */
  function AppendPortItem(errs: seq<ValidationError>, p: Node): seq<ValidationError>
  {
    if p.kind != MappingKind then errs + [ValidationError(p.line, MustBe("containers.ports", "array"))]
    else AppendContainerPort(errs, p)
  }

  /** The first `j` items of a ports list, in order. */
  function AppendPortItems(errs: seq<ValidationError>, items: seq<Node>, j: nat): seq<ValidationError>
    requires j <= |items|
  {
    if j == 0 then errs else AppendPortItem(AppendPortItems(errs, items, j - 1), items[j - 1])
  }

  function AppendPortsField(errs: seq<ValidationError>, n: Option<Node>): seq<ValidationError>
  {
    match n
    case None => errs
    case Some(p) =>
      var e := errs + ExpectTypeErrors(n, SequenceKind, "containers.ports");
      if p.kind == SequenceKind then AppendPortItems(e, p.content, |p.content|) else e
  }

  function AppendProbeField(errs: seq<ValidationError>, n: Option<Node>, field: string): seq<ValidationError>
  {
    if n.None? then errs else AppendProbe(errs, n.value, field)
  }

  function AppendResourcesField(errs: seq<ValidationError>, n: Option<Node>): seq<ValidationError>
  {
    match n
    case None => errs + [ValidationError(0, Required("containers.resources"))]
    case Some(r) =>
      var e := errs + ExpectTypeErrors(n, MappingKind, "containers.resources");
      if r.kind == MappingKind then AppendResources(e, r) else e
  }

  /** name, image, ports, readinessProbe, livenessProbe and resources, in that order. */
  function AppendContainer(errs: seq<ValidationError>, c: Node): seq<ValidationError>
  {
    var e1 := AppendContainerName(errs, Lookup(c, "name"));
    var e2 := AppendImage(e1, Lookup(c, "image"));
    var e3 := AppendPortsField(e2, Lookup(c, "ports"));
    var e4 := AppendProbeField(e3, Lookup(c, "readinessProbe"), "containers.readinessProbe");
    var e5 := AppendProbeField(e4, Lookup(c, "livenessProbe"), "containers.livenessProbe");
    AppendResourcesField(e5, Lookup(c, "resources"))
  }

  // ---------------------------------------------------------------------
  // validateContainerPort

  /** The required containerPort: a scalar whose text parses as an integer in the port range. */
  function AppendPortValue(errs: seq<ValidationError>, n: Option<Node>): seq<ValidationError>
  {
    match n
    case None => errs + [ValidationError(0, Required("containers.ports.containerPort"))]
    case Some(v) =>
      if v.kind != ScalarKind then errs + [ValidationError(v.line, MustBe("containerPort", "int"))]
      else
        match Atoi(v.value)
        case None => errs + [ValidationError(v.line, MustBe("containerPort", "int"))]
        case Some(x) =>
          if x < PortMin || x > PortMax
          then errs + [ValidationError(v.line, "containerPort value out of range")] else errs
  }

  /** The optional protocol: a scalar that is TCP or UDP after upper-casing. */
  function AppendProtocol(errs: seq<ValidationError>, n: Option<Node>): seq<ValidationError>
  {
    match n
    case None => errs
    case Some(v) =>
      var e := errs + ExpectTypeErrors(n, ScalarKind, "protocol");
      if v.kind == ScalarKind && ToUpper(v.value) != "TCP" && ToUpper(v.value) != "UDP"
      then e + [ValidationError(v.line, Unsupported("protocol", v.value))] else e
  }

  function AppendContainerPort(errs: seq<ValidationError>, p: Node): seq<ValidationError>
  {
    AppendProtocol(AppendPortValue(errs, Lookup(p, "containerPort")), Lookup(p, "protocol"))
  }

  // ---------------------------------------------------------------------
  // validateProbe

  function AppendProbePath(errs: seq<ValidationError>, n: Option<Node>, field: string): seq<ValidationError>
  {
    match n
    case None => errs + [ValidationError(0, Required(field + ".httpGet.path"))]
    case Some(v) =>
      var e := errs + ExpectTypeErrors(n, ScalarKind, field + ".httpGet.path");
      if v.kind == ScalarKind && !HasPrefix(v.value, "/")
      then e + [ValidationError(v.line, InvalidFormat(field + ".httpGet.path", v.value))] else e
  }

  /** The probe port: a scalar tagged as an integer, whose text parses, in the port range. */
  function AppendProbePort(errs: seq<ValidationError>, n: Option<Node>, field: string): seq<ValidationError>
  {
    match n
    case None => errs + [ValidationError(0, Required(field + ".httpGet.port"))]
    case Some(v) =>
      if v.kind != ScalarKind || v.tag != "!!int" then errs + [ValidationError(v.line, MustBe("port", "int"))]
      else
        match Atoi(v.value)
        case Some(x) =>
          if x < PortMin || x > PortMax then errs + [ValidationError(v.line, "port value out of range")] else errs
        case None => errs + [ValidationError(v.line, MustBe("port", "int"))]
  }

  /**
   A probe must be a mapping with an httpGet mapping; each of these failures
   ends the check. Then the path and the port are checked.
   */
  function AppendProbe(errs: seq<ValidationError>, n: Node, field: string): seq<ValidationError>
  {
    var e1 := errs + ExpectTypeErrors(Some(n), MappingKind, field);
    if n.kind != MappingKind then e1
    else
      var httpGet := Lookup(n, "httpGet");
      if httpGet.None? then e1 + [ValidationError(0, Required(field + ".httpGet"))]
      else
        var e2 := e1 + ExpectTypeErrors(httpGet, MappingKind, field + ".httpGet");
        if httpGet.value.kind != MappingKind then e2
        else
          AppendProbePort(AppendProbePath(e2, Lookup(httpGet.value, "path"), field),
                          Lookup(httpGet.value, "port"), field)
  }

  // ---------------------------------------------------------------------
  // validateResources and validateResObj

  function AppendCpu(errs: seq<ValidationError>, n: Option<Node>): seq<ValidationError>
  {
    match n
    case None => errs
    case Some(v) =>
      if v.kind != ScalarKind || v.tag != "!!int" then errs + [ValidationError(v.line, MustBe("cpu", "int"))]
      else errs
  }

  function AppendMemory(errs: seq<ValidationError>, n: Option<Node>): seq<ValidationError>
  {
    match n
    case None => errs
    case Some(v) =>
      if v.kind != ScalarKind then errs + [ValidationError(v.line, MustBe("memory", "string"))]
      else if !MemoryQuantity(v.value) then errs + [ValidationError(v.line, InvalidFormat("memory", v.value))]
      else errs
  }

  /** A resource object must be a mapping; then cpu and memory are checked, and nothing else. */
  function AppendResObj(errs: seq<ValidationError>, n: Node, field: string): seq<ValidationError>
  {
    var e := errs + ExpectTypeErrors(Some(n), MappingKind, field);
    if n.kind != MappingKind then e
    else AppendMemory(AppendCpu(e, Lookup(n, "cpu")), Lookup(n, "memory"))
  }

  function AppendResObjField(errs: seq<ValidationError>, n: Option<Node>, field: string): seq<ValidationError>
  {
    if n.None? then errs else AppendResObj(errs, n.value, field)
  }

  /** limits first, then requests; nothing else in the resources mapping is looked at. */
  function AppendResources(errs: seq<ValidationError>, r: Node): seq<ValidationError>
  {
    AppendResObjField(AppendResObjField(errs, Lookup(r, "limits"), "containers.resources.limits"),
                      Lookup(r, "requests"), "containers.resources.requests")
  }

  // ---------------------------------------------------------------------
  // The root of the document (main)

  /**
   The mapping to validate: the document's first node when it is a mapping,
   or the root itself when it is a mapping; nothing otherwise.
   */
  function SelectRoot(root: Node): (r: Option<Node>)
    ensures r.Some? ==> r.value.kind == MappingKind
    ensures r.Some? <==> || root.kind == MappingKind
                         || (root.kind == DocumentKind && |root.content| > 0
                             && root.content[0].kind == MappingKind)
    ensures r.Some? && root.kind == DocumentKind ==> r.value == root.content[0]
    ensures r.Some? && root.kind != DocumentKind ==> r.value == root
  {
    match root.kind
    case DocumentKind =>
      if |root.content| > 0 && root.content[0].kind == MappingKind then Some(root.content[0]) else None
    case MappingKind => Some(root)
    case _ => None
  }
}
