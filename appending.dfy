/**
 The validators only ever append: whatever list a validator is given, it
 returns that list unchanged followed by errors that depend on the nodes
 alone. From this follows that no field's check stops the checks of the
 fields after it at the same level, which are run in source order
 (TopInOrder, ContainerInOrder, ResourcesInOrder). A failed kind check
 skips only the checks under that node, and validateProbe returns early.
 */
module Appending {
  import opened Wrappers
  import opened Yaml
  import opened Report
  import opened Rules

  lemma AppendAssoc(a: seq<ValidationError>, b: seq<ValidationError>, c: seq<ValidationError>)
    ensures a + b + c == a + (b + c)
  {
  }

  // ---------------------------------------------------------------------
  // Single fields

  lemma FixedValueOnlyAppends(errs: seq<ValidationError>, n: Option<Node>, field: string, want: string)
    ensures AppendFixedValue(errs, n, field, want) == errs + AppendFixedValue([], n, field, want)
  {
    if n.Some? {
      AppendAssoc(errs, ExpectTypeErrors(n, ScalarKind, field),
                  [ValidationError(n.value.line, Unsupported(field, n.value.value))]);
    }
  }

  lemma MetaNameOnlyAppends(errs: seq<ValidationError>, n: Option<Node>)
    ensures AppendMetaName(errs, n) == errs + AppendMetaName([], n)
  {
    if n.Some? {
      AppendAssoc(errs, ExpectTypeErrors(n, ScalarKind, "metadata.name"),
                  [ValidationError(n.value.line, Required("name"))]);
    }
  }

  lemma LabelsOnlyAppends(errs: seq<ValidationError>, n: Option<Node>)
    ensures AppendLabels(errs, n) == errs + AppendLabels([], n)
  {
    if n.Some? && n.value.kind == MappingKind {
      match FirstNonScalarLabel(n.value.content, 0)
      case None =>
      case Some(j) =>
        AppendAssoc(errs, ExpectTypeErrors(n, MappingKind, "metadata.labels"),
                    [ValidationError(n.value.content[j + 1].line, InvalidFormat("metadata.labels", ""))]);
    }
  }

  lemma ObjectMetaOnlyAppends(errs: seq<ValidationError>, meta: Node)
    ensures AppendObjectMeta(errs, meta) == errs + AppendObjectMeta([], meta)
  {
    var name, ns, labels := Lookup(meta, "name"), Lookup(meta, "namespace"), Lookup(meta, "labels");
    var a, b, c := AppendMetaName([], name), AppendNamespace([], ns), AppendLabels([], labels);
    MetaNameOnlyAppends(errs, name);
    LabelsOnlyAppends(errs + a + b, labels);
    LabelsOnlyAppends(a + b, labels);
    AppendAssoc(errs, a, b);
    AppendAssoc(errs, a + b, c);
  }

  lemma OsOnlyAppends(errs: seq<ValidationError>, n: Option<Node>)
    ensures AppendOs(errs, n) == errs + AppendOs([], n)
  {
    if n.Some? && n.value.kind == MappingKind {
      var name := Lookup(n.value, "name");
      if name.Some? && name.value.kind == ScalarKind && !OsAccepted(name.value.value) {
        AppendAssoc(errs, ExpectTypeErrors(name, ScalarKind, "spec.os.name"),
                    [ValidationError(name.value.line, Unsupported("os", name.value.value))]);
      }
    }
  }

  lemma ContainerNameOnlyAppends(errs: seq<ValidationError>, n: Option<Node>)
    ensures AppendContainerName(errs, n) == errs + AppendContainerName([], n)
  {
    if n.Some? && n.value.kind == ScalarKind {
      var e := ExpectTypeErrors(n, ScalarKind, "name");
      AppendAssoc(errs, e, [ValidationError(n.value.line, Required("name"))]);
      AppendAssoc(errs, e, [ValidationError(n.value.line, InvalidFormat("containers.name", n.value.value))]);
    }
  }

  lemma ImageOnlyAppends(errs: seq<ValidationError>, n: Option<Node>)
    ensures AppendImage(errs, n) == errs + AppendImage([], n)
  {
    if n.Some? {
      AppendAssoc(errs, ExpectTypeErrors(n, ScalarKind, "containers.image"),
                  [ValidationError(n.value.line, InvalidFormat("containers.image", n.value.value))]);
    }
  }

  lemma ProtocolOnlyAppends(errs: seq<ValidationError>, n: Option<Node>)
    ensures AppendProtocol(errs, n) == errs + AppendProtocol([], n)
  {
    if n.Some? {
      AppendAssoc(errs, ExpectTypeErrors(n, ScalarKind, "protocol"),
                  [ValidationError(n.value.line, Unsupported("protocol", n.value.value))]);
    }
  }

  lemma PortValueOnlyAppends(errs: seq<ValidationError>, n: Option<Node>)
    ensures AppendPortValue(errs, n) == errs + AppendPortValue([], n)
  {
  }

  lemma ContainerPortOnlyAppends(errs: seq<ValidationError>, p: Node)
    ensures AppendContainerPort(errs, p) == errs + AppendContainerPort([], p)
  {
    var port, proto := Lookup(p, "containerPort"), Lookup(p, "protocol");
    var a := AppendPortValue([], port);
    PortValueOnlyAppends(errs, port);
    ProtocolOnlyAppends(errs + a, proto);
    ProtocolOnlyAppends(a, proto);
    AppendAssoc(errs, a, AppendProtocol([], proto));
  }

  lemma PortItemOnlyAppends(errs: seq<ValidationError>, p: Node)
    ensures AppendPortItem(errs, p) == errs + AppendPortItem([], p)
  {
    if p.kind == MappingKind {
      ContainerPortOnlyAppends(errs, p);
    }
  }

  lemma {:induction false} PortItemsOnlyAppends(errs: seq<ValidationError>, items: seq<Node>, j: nat)
    requires j <= |items|
    ensures AppendPortItems(errs, items, j) == errs + AppendPortItems([], items, j)
  {
    if j > 0 {
      var before := AppendPortItems([], items, j - 1);
      PortItemsOnlyAppends(errs, items, j - 1);
      PortItemOnlyAppends(errs + before, items[j - 1]);
      PortItemOnlyAppends(before, items[j - 1]);
      AppendAssoc(errs, before, AppendPortItem([], items[j - 1]));
    }
  }

  lemma PortsFieldOnlyAppends(errs: seq<ValidationError>, n: Option<Node>)
    ensures AppendPortsField(errs, n) == errs + AppendPortsField([], n)
  {
    if n.Some? && n.value.kind == SequenceKind {
      var c := n.value.content;
      var e := ExpectTypeErrors(n, SequenceKind, "containers.ports");
      assert [] + e == e;
      PortItemsOnlyAppends(errs + e, c, |c|);
      PortItemsOnlyAppends(e, c, |c|);
      AppendAssoc(errs, e, AppendPortItems([], c, |c|));
    }
  }

  lemma ProbePathOnlyAppends(errs: seq<ValidationError>, n: Option<Node>, field: string)
    ensures AppendProbePath(errs, n, field) == errs + AppendProbePath([], n, field)
  {
    if n.Some? {
      AppendAssoc(errs, ExpectTypeErrors(n, ScalarKind, field + ".httpGet.path"),
                  [ValidationError(n.value.line, InvalidFormat(field + ".httpGet.path", n.value.value))]);
    }
  }

  lemma ProbeOnlyAppends(errs: seq<ValidationError>, n: Node, field: string)
    ensures AppendProbe(errs, n, field) == errs + AppendProbe([], n, field)
  {
    var e1 := ExpectTypeErrors(Some(n), MappingKind, field);
    if n.kind == MappingKind {
      var httpGet := Lookup(n, "httpGet");
      if httpGet.Some? {
        var e2 := ExpectTypeErrors(httpGet, MappingKind, field + ".httpGet");
        if httpGet.value.kind == MappingKind {
          var path, port := Lookup(httpGet.value, "path"), Lookup(httpGet.value, "port");
          var a := AppendProbePath([], path, field);
          ProbePathOnlyAppends(errs + e1 + e2, path, field);
          ProbePathOnlyAppends(e1 + e2, path, field);
          AppendAssoc(errs, e1, e2);
          AppendAssoc(errs, e1 + e2, a);
          AppendAssoc(errs, e1 + e2 + a, AppendProbePort([], port, field));
        } else {
          AppendAssoc(errs, e1, e2);
        }
      } else {
        AppendAssoc(errs, e1, [ValidationError(0, Required(field + ".httpGet"))]);
      }
    }
  }

  lemma ProbeFieldOnlyAppends(errs: seq<ValidationError>, n: Option<Node>, field: string)
    ensures AppendProbeField(errs, n, field) == errs + AppendProbeField([], n, field)
  {
    if n.Some? {
      ProbeOnlyAppends(errs, n.value, field);
    }
  }

  lemma CpuOnlyAppends(errs: seq<ValidationError>, n: Option<Node>)
    ensures AppendCpu(errs, n) == errs + AppendCpu([], n)
  {
  }

  lemma MemoryOnlyAppends(errs: seq<ValidationError>, n: Option<Node>)
    ensures AppendMemory(errs, n) == errs + AppendMemory([], n)
  {
  }

  lemma ResObjOnlyAppends(errs: seq<ValidationError>, n: Node, field: string)
    ensures AppendResObj(errs, n, field) == errs + AppendResObj([], n, field)
  {
    if n.kind == MappingKind {
      var cpu, mem := Lookup(n, "cpu"), Lookup(n, "memory");
      var a := AppendCpu([], cpu);
      assert ExpectTypeErrors(Some(n), MappingKind, field) == [];
      assert errs + [] == errs;
      CpuOnlyAppends(errs, cpu);
      MemoryOnlyAppends(errs + a, mem);
      MemoryOnlyAppends(a, mem);
      AppendAssoc(errs, a, AppendMemory([], mem));
    }
  }

  lemma ResObjFieldOnlyAppends(errs: seq<ValidationError>, n: Option<Node>, field: string)
    ensures AppendResObjField(errs, n, field) == errs + AppendResObjField([], n, field)
  {
    if n.Some? {
      ResObjOnlyAppends(errs, n.value, field);
    }
  }

  lemma ResourcesOnlyAppends(errs: seq<ValidationError>, r: Node)
    ensures AppendResources(errs, r) == errs + AppendResources([], r)
  {
    var limits, requests := Lookup(r, "limits"), Lookup(r, "requests");
    var a := AppendResObjField([], limits, "containers.resources.limits");
    ResObjFieldOnlyAppends(errs, limits, "containers.resources.limits");
    ResObjFieldOnlyAppends(errs + a, requests, "containers.resources.requests");
    ResObjFieldOnlyAppends(a, requests, "containers.resources.requests");
    AppendAssoc(errs, a, AppendResObjField([], requests, "containers.resources.requests"));
  }

  lemma ResourcesFieldOnlyAppends(errs: seq<ValidationError>, n: Option<Node>)
    ensures AppendResourcesField(errs, n) == errs + AppendResourcesField([], n)
  {
    if n.Some? && n.value.kind == MappingKind {
      var e := ExpectTypeErrors(n, MappingKind, "containers.resources");
      ResourcesOnlyAppends(errs + e, n.value);
      ResourcesOnlyAppends(e, n.value);
      AppendAssoc(errs, e, AppendResources([], n.value));
    }
  }

  // ---------------------------------------------------------------------
  // Containers

  /**
   validateContainer checks name, image, ports, readinessProbe,
   livenessProbe and resources in this order, each whatever the others
   reported.
   */
  lemma ContainerInOrder(errs: seq<ValidationError>, c: Node)
    ensures AppendContainer(errs, c) ==
              errs + AppendContainerName([], Lookup(c, "name"))
                   + AppendImage([], Lookup(c, "image"))
                   + AppendPortsField([], Lookup(c, "ports"))
                   + AppendProbeField([], Lookup(c, "readinessProbe"), "containers.readinessProbe")
                   + AppendProbeField([], Lookup(c, "livenessProbe"), "containers.livenessProbe")
                   + AppendResourcesField([], Lookup(c, "resources"))
  {
    var e1 := AppendContainerName(errs, Lookup(c, "name"));
    var e2 := AppendImage(e1, Lookup(c, "image"));
    var e3 := AppendPortsField(e2, Lookup(c, "ports"));
    var e4 := AppendProbeField(e3, Lookup(c, "readinessProbe"), "containers.readinessProbe");
    var e5 := AppendProbeField(e4, Lookup(c, "livenessProbe"), "containers.livenessProbe");
    ContainerNameOnlyAppends(errs, Lookup(c, "name"));
    ImageOnlyAppends(e1, Lookup(c, "image"));
    PortsFieldOnlyAppends(e2, Lookup(c, "ports"));
    ProbeFieldOnlyAppends(e3, Lookup(c, "readinessProbe"), "containers.readinessProbe");
    ProbeFieldOnlyAppends(e4, Lookup(c, "livenessProbe"), "containers.livenessProbe");
    ResourcesFieldOnlyAppends(e5, Lookup(c, "resources"));
  }

  lemma ContainerOnlyAppends(errs: seq<ValidationError>, c: Node)
    ensures AppendContainer(errs, c) == errs + AppendContainer([], c)
  {
    ContainerInOrder(errs, c);
    ContainerInOrder([], c);
    var a := AppendContainerName([], Lookup(c, "name"));
    var b := AppendImage([], Lookup(c, "image"));
    var p := AppendPortsField([], Lookup(c, "ports"));
    var r := AppendProbeField([], Lookup(c, "readinessProbe"), "containers.readinessProbe");
    var l := AppendProbeField([], Lookup(c, "livenessProbe"), "containers.livenessProbe");
    var s := AppendResourcesField([], Lookup(c, "resources"));
    assert [] + a == a;
    AppendAssoc(errs, a, b);
    AppendAssoc(errs, a + b, p);
    AppendAssoc(errs, a + b + p, r);
    AppendAssoc(errs, a + b + p + r, l);
    AppendAssoc(errs, a + b + p + r + l, s);
  }

  lemma ContainerItemOnlyAppends(errs: seq<ValidationError>, items: seq<Node>, j: nat)
    requires j < |items|
    ensures AppendContainerItem(errs, items, j) == errs + AppendContainerItem([], items, j)
  {
    if items[j].kind == MappingKind {
      ContainerOnlyAppends(errs, items[j]);
      match ScalarName(items[j])
      case None =>
      case Some(n) =>
        AppendAssoc(errs, AppendContainer([], items[j]),
                    [ValidationError(n.line, InvalidFormat("containers.name", n.value))]);
    }
  }

  lemma {:induction false} ContainerItemsOnlyAppends(errs: seq<ValidationError>, items: seq<Node>, j: nat)
    requires j <= |items|
    ensures AppendContainerItems(errs, items, j) == errs + AppendContainerItems([], items, j)
  {
    if j > 0 {
      var before := AppendContainerItems([], items, j - 1);
      ContainerItemsOnlyAppends(errs, items, j - 1);
      ContainerItemOnlyAppends(errs + before, items, j - 1);
      ContainerItemOnlyAppends(before, items, j - 1);
      AppendAssoc(errs, before, AppendContainerItem([], items, j - 1));
    }
  }

  lemma ContainersFieldOnlyAppends(errs: seq<ValidationError>, n: Option<Node>)
    ensures AppendContainersField(errs, n) == errs + AppendContainersField([], n)
  {
    if n.Some? && n.value.kind == SequenceKind {
      var c := n.value.content;
      var e := ExpectTypeErrors(n, SequenceKind, "spec.containers");
      assert [] + e == e;
      ContainerItemsOnlyAppends(errs + e, c, |c|);
      ContainerItemsOnlyAppends(e, c, |c|);
      AppendAssoc(errs, e, AppendContainerItems([], c, |c|));
    }
  }

  lemma PodSpecOnlyAppends(errs: seq<ValidationError>, spec: Node)
    ensures AppendPodSpec(errs, spec) == errs + AppendPodSpec([], spec)
  {
    var os, conts := Lookup(spec, "os"), Lookup(spec, "containers");
    var a := AppendOs([], os);
    OsOnlyAppends(errs, os);
    ContainersFieldOnlyAppends(errs + a, conts);
    ContainersFieldOnlyAppends(a, conts);
    AppendAssoc(errs, a, AppendContainersField([], conts));
  }

  // ---------------------------------------------------------------------
  // The top of the document

  lemma MetadataFieldOnlyAppends(errs: seq<ValidationError>, n: Option<Node>)
    ensures AppendMetadataField(errs, n) == errs + AppendMetadataField([], n)
  {
    if n.Some? && n.value.kind == MappingKind {
      assert ExpectTypeErrors(n, MappingKind, "metadata") == [];
      assert errs + [] == errs;
      ObjectMetaOnlyAppends(errs, n.value);
    }
  }

  lemma SpecFieldOnlyAppends(errs: seq<ValidationError>, n: Option<Node>)
    ensures AppendSpecField(errs, n) == errs + AppendSpecField([], n)
  {
    match n
    case None =>
    case Some(s) =>
      var e := ExpectTypeErrors(n, MappingKind, "spec");
      if s.kind == MappingKind {
        assert e == [];
        assert errs + e == errs && [] + e == [];
        PodSpecOnlyAppends(errs, s);
      } else {
        assert AppendSpecField([], n) == [] + e == e;
      }
  }

  /**
   validateTop checks apiVersion, kind, metadata and spec in this order,
   and each whatever the others reported: a missing or wrong field never
   stops the checks of the fields after it.
   */
  lemma TopInOrder(errs: seq<ValidationError>, top: Node)
    ensures AppendTop(errs, top) ==
              errs + AppendFixedValue([], Lookup(top, "apiVersion"), "apiVersion", "v1")
                   + AppendFixedValue([], Lookup(top, "kind"), "kind", "Pod")
                   + AppendMetadataField([], Lookup(top, "metadata"))
                   + AppendSpecField([], Lookup(top, "spec"))
  {
    var e1 := AppendFixedValue(errs, Lookup(top, "apiVersion"), "apiVersion", "v1");
    var e2 := AppendFixedValue(e1, Lookup(top, "kind"), "kind", "Pod");
    var e3 := AppendMetadataField(e2, Lookup(top, "metadata"));
    FixedValueOnlyAppends(errs, Lookup(top, "apiVersion"), "apiVersion", "v1");
    FixedValueOnlyAppends(e1, Lookup(top, "kind"), "kind", "Pod");
    MetadataFieldOnlyAppends(e2, Lookup(top, "metadata"));
    SpecFieldOnlyAppends(e3, Lookup(top, "spec"));
  }

  /** The error list given to validateTop is kept, and what is added depends on the document alone. */
  lemma TopOnlyAppends(errs: seq<ValidationError>, top: Node)
    ensures AppendTop(errs, top) == errs + AppendTop([], top)
  {
    TopInOrder(errs, top);
    TopInOrder([], top);
    var a := AppendFixedValue([], Lookup(top, "apiVersion"), "apiVersion", "v1");
    var b := AppendFixedValue([], Lookup(top, "kind"), "kind", "Pod");
    var m := AppendMetadataField([], Lookup(top, "metadata"));
    var s := AppendSpecField([], Lookup(top, "spec"));
    assert [] + a == a;
    AppendAssoc(errs, a, b);
    AppendAssoc(errs, a + b, m);
    AppendAssoc(errs, a + b + m, s);
  }

  /** validateResources checks limits before requests. */
  lemma ResourcesInOrder(errs: seq<ValidationError>, r: Node)
    ensures AppendResources(errs, r) ==
              errs + AppendResObjField([], Lookup(r, "limits"), "containers.resources.limits")
                   + AppendResObjField([], Lookup(r, "requests"), "containers.resources.requests")
  {
    var limits := Lookup(r, "limits");
    ResObjFieldOnlyAppends(errs, limits, "containers.resources.limits");
    ResObjFieldOnlyAppends(AppendResObjField(errs, limits, "containers.resources.limits"),
                           Lookup(r, "requests"), "containers.resources.requests");
  }
}
