/**
 The validators of main.go as they run: each takes the error list built so
 far and returns it with its own errors appended, as the Go functions append
 through their `*[]ValidationError` argument. Each is proved to leave
 exactly the list that module Rules gives for the same list and nodes.
 */
module Validator {
  import opened Wrappers
  import opened Yaml
  import opened Text
  import opened Patterns
  import opened Report
  import opened Rules

  /** expectType: reports a missing or mis-kinded node and says whether the node is fine. */
  method ExpectType(node: Option<Node>, kind: Kind, field: string, errs: seq<ValidationError>)
    returns (ok: bool, errs': seq<ValidationError>)
    ensures ok <==> node.Some? && node.value.kind == kind
    ensures errs' == errs + ExpectTypeErrors(node, kind, field)
  {
    if node.None? || node.value.kind != kind {
      var names := map[ScalarKind := "string", MappingKind := "object", SequenceKind := "list"];
      var t := if kind in names then names[kind] else "";
      if t == "" {
        t := "value";
      }
      return false, errs + [ValidationError(NodeLine(node), MustBe(field, t))];
    }
    return true, errs;
  }

  /** validateTop: apiVersion, kind, metadata and spec, each checked whatever became of the others. */
  method ValidateTop(top: Node, errs: seq<ValidationError>) returns (errs': seq<ValidationError>)
    ensures errs' == AppendTop(errs, top)
  {
    var ok;
    var apiNode := GetMap(Some(top), "apiVersion");
    errs' := ValidateFixedValue(apiNode, "apiVersion", "v1", errs);

    var kindNode := GetMap(Some(top), "kind");
    errs' := ValidateFixedValue(kindNode, "kind", "Pod", errs');

    var meta := GetMap(Some(top), "metadata");
    if meta.None? {
      errs' := errs' + [ValidationError(0, Required("metadata"))];
    } else {
      ok, errs' := ExpectType(meta, MappingKind, "metadata", errs');
      if ok {
        errs' := ValidateObjectMeta(meta.value, errs');
      }
    }

    var spec := GetMap(Some(top), "spec");
    if spec.None? {
      errs' := errs' + [ValidationError(0, Required("spec"))];
    } else {
      ok, errs' := ExpectType(spec, MappingKind, "spec", errs');
      if ok {
        errs' := ValidatePodSpec(spec.value, errs');
      }
    }
  }

  /** The apiVersion and kind blocks of validateTop: a required scalar that must hold exactly `want`. */
  method ValidateFixedValue(n: Option<Node>, field: string, want: string, errs: seq<ValidationError>)
    returns (errs': seq<ValidationError>)
    ensures errs' == AppendFixedValue(errs, n, field, want)
  {
    var ok;
    errs' := errs;
    if n.None? {
      errs' := errs' + [ValidationError(0, Required(field))];
    } else {
      ok, errs' := ExpectType(n, ScalarKind, field, errs');
      if ok && n.value.value != want {
        errs' := errs' + [ValidationError(n.value.line, Unsupported(field, n.value.value))];
      }
    }
  }

  /** validateObjectMeta: name, namespace and labels. */
  method ValidateObjectMeta(meta: Node, errs: seq<ValidationError>) returns (errs': seq<ValidationError>)
    ensures errs' == AppendObjectMeta(errs, meta)
  {
    var ok;
    var name := GetMap(Some(meta), "name");
    errs' := ValidateMetaName(name, errs);

    var ns := GetMap(Some(meta), "namespace");
    if ns.Some? {
      ok, errs' := ExpectType(ns, ScalarKind, "metadata.namespace", errs');
    }

    var labels := GetMap(Some(meta), "labels");
    errs' := ValidateLabels(labels, errs');
  }

  /** The name block of validateObjectMeta. */
  method ValidateMetaName(name: Option<Node>, errs: seq<ValidationError>) returns (errs': seq<ValidationError>)
    ensures errs' == AppendMetaName(errs, name)
  {
    var ok;
    errs' := errs;
    if name.None? {
      errs' := errs' + [ValidationError(0, Required("metadata.name"))];
    } else {
      ok, errs' := ExpectType(name, ScalarKind, "metadata.name", errs');
      if ok {
        if TrimSpace(name.value.value) == "" {
          errs' := errs' + [ValidationError(name.value.line, Required("name"))];
        }
      }
    }
  }

  /** The labels block of validateObjectMeta: the loop stops at the first value that is not a scalar. */
  method ValidateLabels(labels: Option<Node>, errs: seq<ValidationError>) returns (errs': seq<ValidationError>)
    ensures errs' == AppendLabels(errs, labels)
  {
    var ok;
    errs' := errs;
    if labels.Some? {
      ok, errs' := ExpectType(labels, MappingKind, "metadata.labels", errs');
      if ok {
        var c := labels.value.content;
        var i := 0;
        ghost var atLoop := errs';
        while i < |c| - 1
          invariant 0 <= i && i % 2 == 0
          invariant FirstNonScalarLabel(c, i) == FirstNonScalarLabel(c, 0)
          invariant errs' == atLoop
        {
          var v := c[i + 1];
          if v.kind != ScalarKind {
            errs' := errs' + [ValidationError(v.line, InvalidFormat("metadata.labels", ""))];
            break;
          }
          i := i + 2;
        }
      }
    }
  }

  method ValidatePodSpec(spec: Node, errs: seq<ValidationError>) returns (errs': seq<ValidationError>)
    ensures errs' == AppendPodSpec(errs, spec)
  {
    var ok;
    errs' := errs;

    var osNode := GetMap(Some(spec), "os");
    if osNode.Some? {
      match osNode.value.kind
      case ScalarKind =>
        errs' := ValidateOSName(osNode.value, errs');
      case MappingKind =>
        var name := GetMap(osNode, "name");
        if name.None? {
          errs' := errs' + [ValidationError(0, Required("spec.os.name"))];
        } else {
          ok, errs' := ExpectType(name, ScalarKind, "spec.os.name", errs');
          if ok {
            errs' := ValidateOSName(name.value, errs');
          }
        }
      case _ =>
        errs' := errs' + [ValidationError(osNode.value.line, MustBe("spec.os", "object"))];
    }

    var conts := GetMap(Some(spec), "containers");
    if conts.None? {
      errs' := errs' + [ValidationError(0, Required("spec.containers"))];
    } else {
      ok, errs' := ExpectType(conts, SequenceKind, "spec.containers", errs');
      if ok {
        errs' := ValidateContainerList(conts.value.content, errs');
      }
    }
  }

  /**
   The loop over the containers list of validatePodSpec: each item is
   checked, and the set `seen` collects the scalar names met so far so that
   a repeated name is reported.
   */
  method ValidateContainerList(items: seq<Node>, errs: seq<ValidationError>) returns (errs': seq<ValidationError>)
    ensures errs' == AppendContainerItems(errs, items, |items|)
  {
    errs' := errs;
    var seen: set<string> := {};
    for j := 0 to |items|
      invariant errs' == AppendContainerItems(errs, items, j)
      invariant forall v :: v in seen <==> NameUsedBefore(items, j, v)
    {
      var item := items[j];
      NameUsedBeforeNext(items, j);
      if item.kind != MappingKind {
        errs' := errs' + [ValidationError(item.line, MustBe("spec.containers", "array"))];
        continue;
      }
      errs' := ValidateContainer(item, errs');
      var n := GetMap(Some(item), "name");
      if n.Some? && n.value.kind == ScalarKind {
        assert ScalarName(item) == n;
        if n.value.value in seen {
          errs' := errs' + [ValidationError(n.value.line, InvalidFormat("containers.name", n.value.value))];
        }
        seen := seen + {n.value.value};
      }
    }
  }

  method ValidateOSName(n: Node, errs: seq<ValidationError>) returns (errs': seq<ValidationError>)
    ensures errs' == AppendOsName(errs, n)
  {
    var val := ToLower(n.value);
    errs' := errs;
    if val != "linux" && val != "windows" {
      errs' := errs' + [ValidationError(n.line, Unsupported("os", n.value))];
    }
  }

  method ValidateContainer(c: Node, errs: seq<ValidationError>) returns (errs': seq<ValidationError>)
    ensures errs' == AppendContainer(errs, c)
  {
    var name := GetMap(Some(c), "name");
    errs' := ValidateContainerName(name, errs);

    var image := GetMap(Some(c), "image");
    errs' := ValidateImage(image, errs');

    var ports := GetMap(Some(c), "ports");
    errs' := ValidatePorts(ports, errs');

    var rp := GetMap(Some(c), "readinessProbe");
    if rp.Some? {
      errs' := ValidateProbe(rp.value, errs', "containers.readinessProbe");
    }

    var lp := GetMap(Some(c), "livenessProbe");
    if lp.Some? {
      errs' := ValidateProbe(lp.value, errs', "containers.livenessProbe");
    }

    var res := GetMap(Some(c), "resources");
    errs' := ValidateResourcesField(res, errs');
  }

  /** The name block of validateContainer. */
  method ValidateContainerName(name: Option<Node>, errs: seq<ValidationError>) returns (errs': seq<ValidationError>)
    ensures errs' == AppendContainerName(errs, name)
  {
    var ok;
    errs' := errs;
    if name.None? {
      errs' := errs' + [ValidationError(0, Required("name"))];
    } else {
      ok, errs' := ExpectType(name, ScalarKind, "name", errs');
      if ok {
        if TrimSpace(name.value.value) == "" {
          errs' := errs' + [ValidationError(name.value.line, Required("name"))];
        } else if !SnakeCase(name.value.value) {
          errs' := errs' + [ValidationError(name.value.line, InvalidFormat("containers.name", name.value.value))];
        }
      }
    }
  }

  /** The image block of validateContainer. */
  method ValidateImage(image: Option<Node>, errs: seq<ValidationError>) returns (errs': seq<ValidationError>)
    ensures errs' == AppendImage(errs, image)
  {
    var ok;
    errs' := errs;
    if image.None? {
      errs' := errs' + [ValidationError(0, Required("containers.image"))];
    } else {
      ok, errs' := ExpectType(image, ScalarKind, "containers.image", errs');
      if ok && !ImageRef(image.value.value) {
        errs' := errs' + [ValidationError(image.value.line, InvalidFormat("containers.image", image.value.value))];
      }
    }
  }

  /**
   The ports block of validateContainer: the list is looped over, and an
   item that is not a mapping is reported and skipped.
   */
  method ValidatePorts(ports: Option<Node>, errs: seq<ValidationError>) returns (errs': seq<ValidationError>)
    ensures errs' == AppendPortsField(errs, ports)
  {
    var ok;
    errs' := errs;
    if ports.Some? {
      ok, errs' := ExpectType(ports, SequenceKind, "containers.ports", errs');
      if ok {
        var items := ports.value.content;
        ghost var atLoop := errs';
        for j := 0 to |items|
          invariant errs' == AppendPortItems(atLoop, items, j)
        {
          var p := items[j];
          if p.kind != MappingKind {
            errs' := errs' + [ValidationError(p.line, MustBe("containers.ports", "array"))];
            continue;
          }
          errs' := ValidateContainerPort(p, errs');
        }
      }
    }
  }

  method ValidateContainerPort(p: Node, errs: seq<ValidationError>) returns (errs': seq<ValidationError>)
    ensures errs' == AppendContainerPort(errs, p)
  {
    var ok;
    errs' := errs;

    var cport := GetMap(Some(p), "containerPort");
    if cport.None? {
      errs' := errs' + [ValidationError(0, Required("containers.ports.containerPort"))];
    } else if cport.value.kind != ScalarKind {
      errs' := errs' + [ValidationError(cport.value.line, MustBe("containerPort", "int"))];
    } else {
      var val := Atoi(cport.value.value);
      if val.None? {
        errs' := errs' + [ValidationError(cport.value.line, MustBe("containerPort", "int"))];
      } else if val.value < PortMin || val.value > PortMax {
        errs' := errs' + [ValidationError(cport.value.line, "containerPort value out of range")];
      }
    }

    var proto := GetMap(Some(p), "protocol");
    if proto.Some? {
      ok, errs' := ExpectType(proto, ScalarKind, "protocol", errs');
      if !ok {
        return;
      }
      var up := ToUpper(proto.value.value);
      if up != "TCP" && up != "UDP" {
        errs' := errs' + [ValidationError(proto.value.line, Unsupported("protocol", proto.value.value))];
      }
    }
  }

  method ValidateProbe(n: Node, errs: seq<ValidationError>, field: string) returns (errs': seq<ValidationError>)
    ensures errs' == AppendProbe(errs, n, field)
  {
    var ok;
    ok, errs' := ExpectType(Some(n), MappingKind, field, errs);
    if !ok {
      return;
    }
    var httpGet := GetMap(Some(n), "httpGet");
    if httpGet.None? {
      errs' := errs' + [ValidationError(0, Required(field + ".httpGet"))];
      return;
    }
    ok, errs' := ExpectType(httpGet, MappingKind, field + ".httpGet", errs');
    if !ok {
      return;
    }

    var path := GetMap(httpGet, "path");
    if path.None? {
      errs' := errs' + [ValidationError(0, Required(field + ".httpGet.path"))];
    } else {
      ok, errs' := ExpectType(path, ScalarKind, field + ".httpGet.path", errs');
      if ok && !HasPrefix(path.value.value, "/") {
        errs' := errs' + [ValidationError(path.value.line, InvalidFormat(field + ".httpGet.path", path.value.value))];
      }
    }

    var port := GetMap(httpGet, "port");
    if port.None? {
      errs' := errs' + [ValidationError(0, Required(field + ".httpGet.port"))];
      return;
    }
    if port.value.kind != ScalarKind || port.value.tag != "!!int" {
      errs' := errs' + [ValidationError(port.value.line, MustBe("port", "int"))];
      return;
    }
    var val := Atoi(port.value.value);
    if val.Some? {
      if val.value < PortMin || val.value > PortMax {
        errs' := errs' + [ValidationError(port.value.line, "port value out of range")];
      }
    } else {
      errs' := errs' + [ValidationError(port.value.line, MustBe("port", "int"))];
    }
  }

  /** The resources block of validateContainer: a required mapping, then validateResources. */
  method ValidateResourcesField(res: Option<Node>, errs: seq<ValidationError>) returns (errs': seq<ValidationError>)
    ensures errs' == AppendResourcesField(errs, res)
  {
    var ok;
    errs' := errs;
    if res.None? {
      errs' := errs' + [ValidationError(0, Required("containers.resources"))];
    } else {
      ok, errs' := ExpectType(res, MappingKind, "containers.resources", errs');
      if ok {
        errs' := ValidateResources(res.value, errs');
      }
    }
  }

  method ValidateResources(n: Node, errs: seq<ValidationError>) returns (errs': seq<ValidationError>)
    ensures errs' == AppendResources(errs, n)
  {
    errs' := errs;
    var limits := GetMap(Some(n), "limits");
    if limits.Some? {
      errs' := ValidateResObj(limits.value, "containers.resources.limits", errs');
    }
    var req := GetMap(Some(n), "requests");
    if req.Some? {
      errs' := ValidateResObj(req.value, "containers.resources.requests", errs');
    }
  }

  method ValidateResObj(n: Node, field: string, errs: seq<ValidationError>) returns (errs': seq<ValidationError>)
    ensures errs' == AppendResObj(errs, n, field)
  {
    var ok;
    ok, errs' := ExpectType(Some(n), MappingKind, field, errs);
    if !ok {
      return;
    }
    var cpu := GetMap(Some(n), "cpu");
    if cpu.Some? {
      if cpu.value.kind != ScalarKind || cpu.value.tag != "!!int" {
        errs' := errs' + [ValidationError(cpu.value.line, MustBe("cpu", "int"))];
      }
    }
    var mem := GetMap(Some(n), "memory");
    if mem.Some? {
      if mem.value.kind != ScalarKind {
        errs' := errs' + [ValidationError(mem.value.line, MustBe("memory", "string"))];
      } else if !MemoryQuantity(mem.value.value) {
        errs' := errs' + [ValidationError(mem.value.line, InvalidFormat("memory", mem.value.value))];
      }
    }
  }
}
