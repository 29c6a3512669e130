/**
 What the error lists of module Rules mean: for each field, exactly when
 the validator accepts it (appends nothing), and otherwise which message it
 reports at which line.
 */
module Properties {
  import opened Wrappers
  import opened Yaml
  import opened Text
  import opened Patterns
  import opened Report
  import opened Rules
  import opened Appending

  // ---------------------------------------------------------------------
  // validateTop

  /** apiVersion and kind: accepted exactly when present, a scalar, and equal to `want`, case included. */
  lemma FixedValueAccepted(errs: seq<ValidationError>, n: Option<Node>, field: string, want: string)
    ensures AppendFixedValue(errs, n, field, want) == errs <==>
              n.Some? && n.value.kind == ScalarKind && n.value.value == want
  {
    FixedValueOnlyAppends(errs, n, field, want);
  }

  /** What a rejected apiVersion or kind adds: one error, with the message the code writes. */
  lemma FixedValueReports(errs: seq<ValidationError>, n: Option<Node>, field: string, want: string)
    ensures n.None? ==>
              AppendFixedValue(errs, n, field, want) == errs + [ValidationError(0, field + " is required")]
    ensures n.Some? && n.value.kind != ScalarKind ==>
              AppendFixedValue(errs, n, field, want) == errs + [ValidationError(NodeLine(n), field + " must be string")]
    ensures n.Some? && n.value.kind == ScalarKind && n.value.value != want ==>
              AppendFixedValue(errs, n, field, want)
              == errs + [ValidationError(n.value.line, field + " has unsupported value '" + n.value.value + "'")]
  {
    MustBeTexts(field);
    if n.Some? && n.value.kind == ScalarKind {
      assert ExpectTypeErrors(n, ScalarKind, field) == [];
    }
  }

  /** A mapping with none of the four top-level fields gets the four "is required" errors, in order. */
  lemma TopAllMissing(errs: seq<ValidationError>, top: Node)
    requires Lookup(top, "apiVersion").None? && Lookup(top, "kind").None?
    requires Lookup(top, "metadata").None? && Lookup(top, "spec").None?
    ensures AppendTop(errs, top) == errs + [ ValidationError(0, Required("apiVersion")),
                                             ValidationError(0, Required("kind")),
                                             ValidationError(0, Required("metadata")),
                                             ValidationError(0, Required("spec")) ]
  {
    TopInOrder(errs, top);
  }

  /** The document is accepted exactly when each of its four parts is. */
  lemma TopAccepted(errs: seq<ValidationError>, top: Node)
    ensures AppendTop(errs, top) == errs <==>
              && AppendFixedValue([], Lookup(top, "apiVersion"), "apiVersion", "v1") == []
              && AppendFixedValue([], Lookup(top, "kind"), "kind", "Pod") == []
              && AppendMetadataField([], Lookup(top, "metadata")) == []
              && AppendSpecField([], Lookup(top, "spec")) == []
  {
    TopInOrder(errs, top);
  }

  /** metadata and spec must each be a mapping; one that is not is reported and not looked into. */
  lemma TopFieldsNotObject(errs: seq<ValidationError>, n: Option<Node>)
    ensures n.Some? && n.value.kind != MappingKind ==>
              AppendMetadataField(errs, n) == errs + [ValidationError(NodeLine(n), "metadata must be object")]
    ensures n.Some? && n.value.kind != MappingKind ==>
              AppendSpecField(errs, n) == errs + [ValidationError(NodeLine(n), "spec must be object")]
  {
    MustBeTexts("metadata");
    MustBeTexts("spec");
    assert "metadata" + " must be object" == "metadata must be object";
    assert "spec" + " must be object" == "spec must be object";
  }

  /** A missing metadata or spec is reported at line 0. */
  lemma TopFieldsMissing(errs: seq<ValidationError>)
    ensures AppendMetadataField(errs, None) == errs + [ValidationError(0, "metadata is required")]
    ensures AppendSpecField(errs, None) == errs + [ValidationError(0, "spec is required")]
  {
    assert Required("metadata") == "metadata is required";
    assert Required("spec") == "spec is required";
  }

  /** metadata is accepted exactly when it is a mapping whose name, namespace and labels are. */
  lemma MetadataFieldAccepted(errs: seq<ValidationError>, n: Option<Node>)
    ensures AppendMetadataField(errs, n) == errs <==>
              n.Some? && n.value.kind == MappingKind && AppendObjectMeta([], n.value) == []
  {
    MetadataFieldOnlyAppends(errs, n);
    if n.Some? && n.value.kind == MappingKind {
      assert ExpectTypeErrors(n, MappingKind, "metadata") == [];
    }
  }

  /** spec is accepted exactly when it is a mapping whose os and containers are. */
  lemma SpecFieldAccepted(errs: seq<ValidationError>, n: Option<Node>)
    ensures AppendSpecField(errs, n) == errs <==>
              n.Some? && n.value.kind == MappingKind && AppendPodSpec([], n.value) == []
  {
    SpecFieldOnlyAppends(errs, n);
    match n
    case None =>
    case Some(s) =>
      var e := ExpectTypeErrors(n, MappingKind, "spec");
      if s.kind == MappingKind {
        assert e == [] && [] + e == [];
        assert AppendSpecField([], n) == AppendPodSpec([], s);
      } else {
        assert AppendSpecField([], n) == [] + e == e;
      }
  }

  // ---------------------------------------------------------------------
  // validateObjectMeta

  /** metadata.name is accepted exactly when it is a scalar that is not all white space. */
  lemma MetaNameAccepted(errs: seq<ValidationError>, n: Option<Node>)
    ensures AppendMetaName(errs, n) == errs <==>
              n.Some? && n.value.kind == ScalarKind && exists i :: 0 <= i < |n.value.value| && !IsSpace(n.value.value[i])
  {
    MetaNameOnlyAppends(errs, n);
    if n.Some? {
      BlankIff(n.value.value);
    }
  }

  /** The three messages about metadata.name: missing, not a scalar, blank. */
  lemma MetaNameReports(errs: seq<ValidationError>, n: Option<Node>)
    ensures n.None? ==> AppendMetaName(errs, n) == errs + [ValidationError(0, "metadata.name is required")]
    ensures n.Some? && n.value.kind != ScalarKind ==>
              AppendMetaName(errs, n) == errs + [ValidationError(NodeLine(n), "metadata.name must be string")]
    ensures n.Some? && n.value.kind == ScalarKind && IsBlank(n.value.value) ==>
              AppendMetaName(errs, n) == errs + [ValidationError(n.value.line, "name is required")]
  {
    MustBeTexts("metadata.name");
    assert "metadata.name" + " must be string" == "metadata.name must be string";
    assert Required("metadata.name") == "metadata.name is required";
    assert Required("name") == "name is required";
    if n.Some? && n.value.kind == ScalarKind {
      assert ExpectTypeErrors(n, ScalarKind, "metadata.name") == [];
      assert errs + [] == errs;
    }
  }

  /** A namespace is optional; when present it must be a scalar, and nothing else is checked. */
  lemma NamespaceReports(errs: seq<ValidationError>, n: Option<Node>)
    ensures AppendNamespace(errs, n) == errs <==> n.None? || n.value.kind == ScalarKind
    ensures n.Some? && n.value.kind != ScalarKind ==>
              AppendNamespace(errs, n) == errs + [ValidationError(NodeLine(n), "metadata.namespace must be string")]
  {
    MustBeTexts("metadata.namespace");
    assert "metadata.namespace" + " must be string" == "metadata.namespace must be string";
  }

  /** The value position `i + 1` of even key position `i` holds a scalar from position `from` on. */
  predicate ScalarValuesFrom(c: seq<Node>, from: nat)
  {
    forall i :: from <= i && i % 2 == 0 && i + 1 < |c| ==> c[i + 1].kind == ScalarKind
  }

  /**
   The labels loop stops at the first key position whose value is not a
   scalar, and runs to the end exactly when all values are scalars.
   */
  lemma {:induction false} FirstNonScalarLabelIsFirst(c: seq<Node>, from: nat)
    requires from % 2 == 0
    ensures FirstNonScalarLabel(c, from).None? <==> ScalarValuesFrom(c, from)
    ensures FirstNonScalarLabel(c, from).Some? ==>
              var j := FirstNonScalarLabel(c, from).value;
              j % 2 == 0 && c[j + 1].kind != ScalarKind && ScalarValuesFrom(c[..j], from)
    decreases |c| - from
  {
    if from + 1 < |c| && c[from + 1].kind == ScalarKind {
      FirstNonScalarLabelIsFirst(c, from + 2);
      if FirstNonScalarLabel(c, from).Some? {
        var j := FirstNonScalarLabel(c, from).value;
        assert ScalarValuesFrom(c[..j], from + 2);
        assert forall i :: from <= i && i % 2 == 0 && i + 1 < j ==> c[..j][i + 1] == c[i + 1];
      }
    }
  }

  /**
   metadata.labels is accepted exactly when absent, or a mapping whose
   values are all scalars; otherwise the one error is at the first
   non-scalar value.
   */
  lemma LabelsAccepted(errs: seq<ValidationError>, n: Option<Node>)
    ensures AppendLabels(errs, n) == errs <==>
              n.None? || (n.value.kind == MappingKind && ScalarValuesFrom(n.value.content, 0))
    ensures n.Some? && n.value.kind == MappingKind && !ScalarValuesFrom(n.value.content, 0) ==>
              exists j :: && 0 <= j && j % 2 == 0 && j + 1 < |n.value.content|
                          && n.value.content[j + 1].kind != ScalarKind
                          && ScalarValuesFrom(n.value.content[..j], 0)
                          && AppendLabels(errs, n)
                             == errs + [ValidationError(n.value.content[j + 1].line, "metadata.labels has invalid format ''")]
  {
    LabelsOnlyAppends(errs, n);
    if n.Some? && n.value.kind == MappingKind {
      FirstNonScalarLabelIsFirst(n.value.content, 0);
      if FirstNonScalarLabel(n.value.content, 0).Some? {
        var j := FirstNonScalarLabel(n.value.content, 0).value;
        assert ExpectTypeErrors(n, MappingKind, "metadata.labels") == [];
        assert InvalidFormat("metadata.labels", "") == "metadata.labels has invalid format ''";
        assert j + 1 < |n.value.content|;
      }
    }
  }

  /** Labels that are not a mapping are reported and not looked into. */
  lemma LabelsNotObject(errs: seq<ValidationError>, n: Option<Node>)
    ensures n.Some? && n.value.kind != MappingKind ==>
              AppendLabels(errs, n) == errs + [ValidationError(NodeLine(n), "metadata.labels must be object")]
  {
    MustBeTexts("metadata.labels");
    assert "metadata.labels" + " must be object" == "metadata.labels must be object";
  }

  /** The object metadata is accepted exactly when its name, namespace and labels each are. */
  lemma ObjectMetaAccepted(errs: seq<ValidationError>, meta: Node)
    ensures AppendObjectMeta(errs, meta) == errs <==>
              && AppendMetaName([], Lookup(meta, "name")) == []
              && AppendNamespace([], Lookup(meta, "namespace")) == []
              && AppendLabels([], Lookup(meta, "labels")) == []
  {
    var a, b := AppendMetaName([], Lookup(meta, "name")), AppendNamespace([], Lookup(meta, "namespace"));
    ObjectMetaOnlyAppends(errs, meta);
    LabelsOnlyAppends(a + b, Lookup(meta, "labels"));
  }

  // ---------------------------------------------------------------------
  // validatePodSpec and validateOSName

  /**
   An OS name is accepted exactly when lower-casing it gives linux or
   windows, and a refused name is echoed as written, not lower-cased.
   */
  lemma OsNameAccepted(errs: seq<ValidationError>, n: Node)
    ensures AppendOsName(errs, n) == errs <==> OsAccepted(n.value)
    ensures !OsAccepted(n.value) ==>
              AppendOsName(errs, n) == errs + [ValidationError(n.line, "os has unsupported value '" + n.value + "'")]
  {
    assert "os" + " has unsupported value '" == "os has unsupported value '";
  }

  /** The comparison ignores case letter by letter: exactly the names of five or seven letters that lower-case to linux or windows. */
  lemma OsAcceptedIff(v: string)
    ensures OsAccepted(v) <==>
              || (|v| == 5 && forall i :: 0 <= i < 5 ==> LowerChar(v[i]) == "linux"[i])
              || (|v| == 7 && forall i :: 0 <= i < 7 ==> LowerChar(v[i]) == "windows"[i])
  {
    ToLowerIs(v, "linux");
    ToLowerIs(v, "windows");
  }

  /** Case is ignored: mixed-case and upper-case spellings are accepted. */
  lemma OsExamplesAccepted()
    ensures OsAccepted("Linux") && OsAccepted("WINDOWS")
  {
    OsAcceptedIff("Linux");
    OsAcceptedIff("WINDOWS");
  }

  /** White space is not trimmed, and other systems are refused. */
  lemma OsExamplesRefused()
    ensures !OsAccepted("linux ") && !OsAccepted("darwin")
  {
    ToLowerAt("linux ");
    OsAcceptedIff("darwin");
    assert LowerChar("darwin"[0]) != "linux"[0];
  }

  /** The kinds an os node may have: a scalar is the name, a mapping must hold a scalar name, anything else is refused. */
  lemma OsReports(errs: seq<ValidationError>, n: Option<Node>)
    ensures n.None? ==> AppendOs(errs, n) == errs
    ensures n.Some? && n.value.kind == ScalarKind ==> AppendOs(errs, n) == AppendOsName(errs, n.value)
    ensures n.Some? && n.value.kind == MappingKind && Lookup(n.value, "name").None? ==>
              AppendOs(errs, n) == errs + [ValidationError(0, "spec.os.name is required")]
    ensures n.Some? && n.value.kind == MappingKind && Lookup(n.value, "name").Some?
            && Lookup(n.value, "name").value.kind != ScalarKind ==>
              AppendOs(errs, n)
              == errs + [ValidationError(NodeLine(Lookup(n.value, "name")), "spec.os.name must be string")]
    ensures n.Some? && n.value.kind == MappingKind && ScalarName(n.value).Some? ==>
              AppendOs(errs, n) == AppendOsName(errs, ScalarName(n.value).value)
    ensures n.Some? && n.value.kind != ScalarKind && n.value.kind != MappingKind ==>
              AppendOs(errs, n) == errs + [ValidationError(n.value.line, "spec.os must be object")]
  {
    MustBeTexts("spec.os");
    MustBeTexts("spec.os.name");
    assert "spec.os" + " must be object" == "spec.os must be object";
    assert "spec.os.name" + " must be string" == "spec.os.name must be string";
    assert Required("spec.os.name") == "spec.os.name is required";
    if n.Some? && n.value.kind == MappingKind {
      var name := Lookup(n.value, "name");
      if name.Some? && name.value.kind == ScalarKind {
        assert ExpectTypeErrors(name, ScalarKind, "spec.os.name") == [];
        assert errs + [] == errs;
      } else if name.Some? {
        assert ExpectTypeErrors(name, ScalarKind, "spec.os.name")
               == [ValidationError(NodeLine(name), MustBe("spec.os.name", "string"))];
      }
    } else if n.Some? && n.value.kind != ScalarKind {
      assert AppendOs(errs, n) == errs + [ValidationError(n.value.line, MustBe("spec.os", "object"))];
    }
  }

  // ---------------------------------------------------------------------
  // Containers: names and duplicates

  /** A snake-case name is never blank: it starts with a letter. */
  lemma SnakeCaseNotBlank(s: string)
    requires SnakeCase(s)
    ensures !IsBlank(s)
  {
    if IsBlank(s) {
      BlankIsAllSpace(s);
    }
  }

  /** A container name is accepted exactly when it is a scalar that matches ^[a-z]+(_[a-z]+)*$. */
  lemma ContainerNameAccepted(errs: seq<ValidationError>, n: Option<Node>)
    ensures AppendContainerName(errs, n) == errs <==> n.Some? && n.value.kind == ScalarKind && SnakeCase(n.value.value)
  {
    ContainerNameOnlyAppends(errs, n);
    if n.Some? && n.value.kind == ScalarKind && SnakeCase(n.value.value) {
      SnakeCaseNotBlank(n.value.value);
    }
  }

  /** A blank name is reported as missing; any other refused scalar name as a bad format. */
  lemma ContainerNameReports(errs: seq<ValidationError>, n: Option<Node>)
    ensures n.Some? && n.value.kind == ScalarKind && IsBlank(n.value.value) ==>
              AppendContainerName(errs, n) == errs + [ValidationError(n.value.line, "name is required")]
    ensures n.Some? && n.value.kind == ScalarKind && !IsBlank(n.value.value) && !SnakeCase(n.value.value) ==>
              AppendContainerName(errs, n)
              == errs + [ValidationError(n.value.line, "containers.name has invalid format '" + n.value.value + "'")]
  {
    assert Required("name") == "name is required";
    assert "containers.name" + " has invalid format '" == "containers.name has invalid format '";
    if n.Some? && n.value.kind == ScalarKind {
      assert ExpectTypeErrors(n, ScalarKind, "name") == [];
    }
  }

  /** A container name that is missing or not a scalar, with the field called just "name". */
  lemma ContainerNameMissing(errs: seq<ValidationError>, n: Option<Node>)
    ensures n.None? ==> AppendContainerName(errs, n) == errs + [ValidationError(0, "name is required")]
    ensures n.Some? && n.value.kind != ScalarKind ==>
              AppendContainerName(errs, n) == errs + [ValidationError(NodeLine(n), "name must be string")]
  {
    MustBeTexts("name");
    assert "name" + " must be string" == "name must be string";
    assert Required("name") == "name is required";
  }

  lemma SnakeCaseExamples()
    ensures SnakeCase("web") && SnakeCase("web_app") && SnakeCase("a_b_c")
  {
  }

  lemma NotSnakeCaseExamples()
    ensures !SnakeCase("web_1") && !SnakeCase("Web") && !SnakeCase("web-app") && !SnakeCase("")
  {
  }

  lemma UnderscoreExamples()
    ensures !SnakeCase("_web") && !SnakeCase("web_") && !SnakeCase("web__app")
  {
  }

  /**
   Of two containers with the same scalar name, the first occurrence is
   validated only as a container, and the later one is in addition reported
   at its own name's line with the invalid-format message.
   */
  lemma RepeatedNameReported(errs: seq<ValidationError>, items: seq<Node>, i: nat, j: nat)
    requires i < j < |items|
    requires ScalarName(items[i]).Some? && ScalarName(items[j]).Some?
    requires ScalarName(items[i]).value.value == ScalarName(items[j]).value.value
    requires !NameUsedBefore(items, i, ScalarName(items[i]).value.value)
    ensures AppendContainerItem(errs, items, i) == AppendContainer(errs, items[i])
    ensures var n := ScalarName(items[j]).value;
            AppendContainerItem(errs, items, j)
            == AppendContainer(errs, items[j]) + [ValidationError(n.line, "containers.name has invalid format '" + n.value + "'")]
  {
    assert NameUsedBefore(items, j, ScalarName(items[j]).value.value);
    assert "containers.name" + " has invalid format '" == "containers.name has invalid format '";
  }

  /**
   The rule for each mapping item of the containers list: it is validated as
   a container, and its scalar name is then reported exactly when an earlier
   item had the same scalar name.
   */
  lemma ContainerItemNameRule(errs: seq<ValidationError>, items: seq<Node>, j: nat)
    requires j < |items| && items[j].kind == MappingKind
    ensures ScalarName(items[j]).None? ==> AppendContainerItem(errs, items, j) == AppendContainer(errs, items[j])
    ensures ScalarName(items[j]).Some? && !NameUsedBefore(items, j, ScalarName(items[j]).value.value) ==>
              AppendContainerItem(errs, items, j) == AppendContainer(errs, items[j])
    ensures var n := ScalarName(items[j]);
            n.Some? && NameUsedBefore(items, j, n.value.value) ==>
              AppendContainerItem(errs, items, j)
              == AppendContainer(errs, items[j]) + [ValidationError(n.value.line, "containers.name has invalid format '" + n.value.value + "'")]
  {
    assert "containers.name" + " has invalid format '" == "containers.name has invalid format '";
  }

  /** A container is accepted exactly when each of its six fields is. */
  lemma ContainerAccepted(errs: seq<ValidationError>, c: Node)
    ensures AppendContainer(errs, c) == errs <==>
              && AppendContainerName([], Lookup(c, "name")) == []
              && AppendImage([], Lookup(c, "image")) == []
              && AppendPortsField([], Lookup(c, "ports")) == []
              && AppendProbeField([], Lookup(c, "readinessProbe"), "containers.readinessProbe") == []
              && AppendProbeField([], Lookup(c, "livenessProbe"), "containers.livenessProbe") == []
              && AppendResourcesField([], Lookup(c, "resources")) == []
  {
    ContainerInOrder(errs, c);
  }

  /** An item that is not a mapping is reported, not validated, and its name is not remembered. */
  lemma NonMappingItemSkipped(errs: seq<ValidationError>, items: seq<Node>, j: nat)
    requires j < |items| && items[j].kind != MappingKind
    ensures AppendContainerItem(errs, items, j) == errs + [ValidationError(items[j].line, "spec.containers must be array")]
    ensures forall v :: NameUsedBefore(items, j + 1, v) <==> NameUsedBefore(items, j, v)
  {
    NameUsedBeforeNext(items, j);
    MustBeTexts("spec.containers");
    assert "spec.containers" + " must be array" == "spec.containers must be array";
  }

  /** containers is required and must be a list, but an empty list is accepted. */
  lemma ContainersFieldReports(errs: seq<ValidationError>, n: Option<Node>)
    ensures n.None? ==> AppendContainersField(errs, n) == errs + [ValidationError(0, "spec.containers is required")]
    ensures n.Some? && n.value.kind != SequenceKind ==>
              AppendContainersField(errs, n) == errs + [ValidationError(NodeLine(n), "spec.containers must be list")]
    ensures n.Some? && n.value.kind == SequenceKind && n.value.content == [] ==> AppendContainersField(errs, n) == errs
  {
    MustBeTexts("spec.containers");
    assert "spec.containers" + " must be list" == "spec.containers must be list";
    assert Required("spec.containers") == "spec.containers is required";
    if n.Some? && n.value.kind == SequenceKind {
      assert ExpectTypeErrors(n, SequenceKind, "spec.containers") == [];
    } else if n.Some? {
      assert ExpectTypeErrors(n, SequenceKind, "spec.containers")
             == [ValidationError(NodeLine(n), MustBe("spec.containers", "list"))];
    }
  }

  /**
   One item of the containers list is accepted exactly when it is a mapping,
   it is accepted as a container, and its scalar name, if any, is new.
   */
  lemma ContainerItemAccepted(errs: seq<ValidationError>, items: seq<Node>, k: nat)
    requires k < |items|
    ensures AppendContainerItem(errs, items, k) == errs <==>
              && items[k].kind == MappingKind
              && AppendContainer([], items[k]) == []
              && (ScalarName(items[k]).Some? ==> !NameUsedBefore(items, k, ScalarName(items[k]).value.value))
  {
    ContainerItemOnlyAppends(errs, items, k);
  }

  /**
   A list built by appending the errors `f(k)` of each position `k` in turn
   is empty exactly when each of them is.
   */
  lemma {:induction false} EmptyFold(acc: nat -> seq<ValidationError>, f: nat -> seq<ValidationError>, j: nat)
    requires acc(0) == []
    requires forall k: nat :: k < j ==> acc(k + 1) == acc(k) + f(k)
    ensures acc(j) == [] <==> forall k: nat :: k < j ==> f(k) == []
  {
    if j > 0 {
      EmptyFold(acc, f, j - 1);
      assert acc(j) == acc(j - 1) + f(j - 1);
    }
  }

  /** The errors of the first `k` items of a containers list. */
  function ItemsErrors(items: seq<Node>): nat -> seq<ValidationError>
  {
    (k: nat) => if k <= |items| then AppendContainerItems([], items, k) else []
  }

  /** The errors of item `k` of a containers list, given the items before it. */
  function ItemErrors(items: seq<Node>): nat -> seq<ValidationError>
  {
    (k: nat) => if k < |items| then AppendContainerItem([], items, k) else []
  }

  /** Each container item appends its own errors to those of the items before it. */
  lemma ContainerItemsStep(items: seq<Node>, k: nat)
    requires k < |items|
    ensures ItemsErrors(items)(k + 1) == ItemsErrors(items)(k) + ItemErrors(items)(k)
  {
    ContainerItemOnlyAppends(AppendContainerItems([], items, k), items, k);
  }

  lemma ContainerItemsFold(items: seq<Node>, j: nat)
    requires j <= |items|
    ensures ItemsErrors(items)(j) == [] <==> forall k: nat :: k < j ==> ItemErrors(items)(k) == []
  {
    forall k: nat | k < j
      ensures ItemsErrors(items)(k + 1) == ItemsErrors(items)(k) + ItemErrors(items)(k)
    {
      ContainerItemsStep(items, k);
    }
    EmptyFold(ItemsErrors(items), ItemErrors(items), j);
  }

  /** The first `j` container items give no errors exactly when each of them gives none. */
  lemma NoContainerItemErrors(items: seq<Node>, j: nat)
    requires j <= |items|
    ensures AppendContainerItems([], items, j) == [] <==> forall k :: 0 <= k < j ==> AppendContainerItem([], items, k) == []
  {
    ContainerItemsFold(items, j);
    assert ItemsErrors(items)(j) == AppendContainerItems([], items, j);
    assert forall k: nat :: k < j ==> ItemErrors(items)(k) == AppendContainerItem([], items, k);
  }

  /** The first `j` container items are accepted exactly when each of them is. */
  lemma ContainerItemsAccepted(errs: seq<ValidationError>, items: seq<Node>, j: nat)
    requires j <= |items|
    ensures AppendContainerItems(errs, items, j) == errs <==>
              forall k :: 0 <= k < j ==> AppendContainerItem([], items, k) == []
  {
    ContainerItemsOnlyAppends(errs, items, j);
    NoContainerItemErrors(items, j);
  }

  /**
   The containers field is accepted exactly when it is a list whose items
   are all mappings accepted as containers, with no scalar name repeated.
   */
  lemma ContainersFieldAccepted(errs: seq<ValidationError>, n: Option<Node>)
    ensures AppendContainersField(errs, n) == errs <==>
              && n.Some? && n.value.kind == SequenceKind
              && forall k :: 0 <= k < |n.value.content| ==>
                   && n.value.content[k].kind == MappingKind
                   && AppendContainer([], n.value.content[k]) == []
                   && (ScalarName(n.value.content[k]).Some? ==>
                         !NameUsedBefore(n.value.content, k, ScalarName(n.value.content[k]).value.value))
  {
    ContainersFieldOnlyAppends(errs, n);
    match n
    case None =>
    case Some(list) =>
      var e := ExpectTypeErrors(n, SequenceKind, "spec.containers");
      if list.kind == SequenceKind {
        var c := list.content;
        assert e == [] && [] + e == [];
        assert AppendContainersField([], n) == AppendContainerItems([], c, |c|);
        ContainerItemsAccepted([], c, |c|);
        forall k | 0 <= k < |c| {
          ContainerItemAccepted([], c, k);
        }
      } else {
        assert AppendContainersField([], n) == [] + e == e;
      }
  }

  /** The pod spec is accepted exactly when its os and its containers each are. */
  lemma PodSpecAccepted(errs: seq<ValidationError>, spec: Node)
    ensures AppendPodSpec(errs, spec) == errs <==>
              AppendOs([], Lookup(spec, "os")) == [] && AppendContainersField([], Lookup(spec, "containers")) == []
  {
    var a := AppendOs([], Lookup(spec, "os"));
    PodSpecOnlyAppends(errs, spec);
    ContainersFieldOnlyAppends(a, Lookup(spec, "containers"));
  }

  // ---------------------------------------------------------------------
  // Images

  /** An image is accepted exactly when it is a scalar of the form registry.bigbrother.io/<path>:<tag>. */
  lemma ImageAccepted(errs: seq<ValidationError>, n: Option<Node>)
    ensures AppendImage(errs, n) == errs <==> n.Some? && n.value.kind == ScalarKind && ImageRef(n.value.value)
    ensures n.Some? && n.value.kind == ScalarKind && !ImageRef(n.value.value) ==>
              AppendImage(errs, n)
              == errs + [ValidationError(n.value.line, "containers.image has invalid format '" + n.value.value + "'")]
  {
    ImageOnlyAppends(errs, n);
    if n.Some? && n.value.kind == ScalarKind {
      assert ExpectTypeErrors(n, ScalarKind, "containers.image") == [];
      assert "containers.image" + " has invalid format '" == "containers.image has invalid format '";
    }
  }

  /** An image that is missing or not a scalar. */
  lemma ImageReports(errs: seq<ValidationError>, n: Option<Node>)
    ensures n.None? ==> AppendImage(errs, n) == errs + [ValidationError(0, "containers.image is required")]
    ensures n.Some? && n.value.kind != ScalarKind ==>
              AppendImage(errs, n) == errs + [ValidationError(NodeLine(n), "containers.image must be string")]
  {
    MustBeTexts("containers.image");
    assert "containers.image" + " must be string" == "containers.image must be string";
    assert Required("containers.image") == "containers.image is required";
  }

  // ---------------------------------------------------------------------
  // validateContainerPort

  /** A containerPort is accepted exactly when it is a scalar whose text Atoi parses to a number from 1 to 65535. */
  lemma PortValueAccepted(errs: seq<ValidationError>, n: Option<Node>)
    ensures AppendPortValue(errs, n) == errs <==>
              && n.Some? && n.value.kind == ScalarKind && Atoi(n.value.value).Some?
              && 1 <= Atoi(n.value.value).value <= 65535
  {
  }

  /** The three ways a containerPort is refused, each with one error. */
  lemma PortValueReports(errs: seq<ValidationError>, n: Option<Node>)
    ensures n.None? ==> AppendPortValue(errs, n) == errs + [ValidationError(0, "containers.ports.containerPort is required")]
    ensures n.Some? && (n.value.kind != ScalarKind || Atoi(n.value.value).None?) ==>
              AppendPortValue(errs, n) == errs + [ValidationError(n.value.line, "containerPort must be int")]
    ensures n.Some? && n.value.kind == ScalarKind && Atoi(n.value.value).Some?
            && (Atoi(n.value.value).value < 1 || Atoi(n.value.value).value > 65535) ==>
              AppendPortValue(errs, n) == errs + [ValidationError(n.value.line, "containerPort value out of range")]
  {
    MustBeTexts("containerPort");
    assert "containerPort" + " must be int" == "containerPort must be int";
    assert Required("containers.ports.containerPort") == "containers.ports.containerPort is required";
  }

  /** Every port number, written in decimal, is an accepted containerPort. */
  lemma PrintedPortAccepted(errs: seq<ValidationError>, n: Node, port: int)
    requires 1 <= port <= 65535
    requires n.kind == ScalarKind && n.value == Itoa(port)
    ensures AppendPortValue(errs, Some(n)) == errs
  {
    AtoiOfItoa(port);
  }

  lemma AtoiRefuses()
    ensures Atoi("abc") == None && Atoi("") == None && Atoi("1e3") == None && Atoi("80 ") == None && Atoi("-") == None
  {
    assert !IsDigit("1e3"[1]);
    assert !IsDigit("80 "[2]);
  }

  lemma AtoiAccepts()
    ensures Atoi("8080") == Some(8080) && Atoi("0") == Some(0)
  {
    assert Itoa(8080) == "8080";
    AtoiOfItoa(8080);
    assert Itoa(0) == "0";
    AtoiOfItoa(0);
  }

  lemma AtoiAcceptsSign()
    ensures Atoi("+80") == Some(80) && Atoi("-1") == Some(-1)
  {
    assert "+80"[1..] == Itoa(80);
    AtoiOfItoa(80);
    assert Itoa(-1) == "-1";
    AtoiOfItoa(-1);
  }

  /** A protocol is accepted exactly when absent, or a scalar that upper-cases to TCP or UDP. */
  lemma ProtocolAccepted(errs: seq<ValidationError>, n: Option<Node>)
    ensures AppendProtocol(errs, n) == errs <==>
              n.None? || (n.value.kind == ScalarKind && (ToUpper(n.value.value) == "TCP" || ToUpper(n.value.value) == "UDP"))
  {
    ProtocolOnlyAppends(errs, n);
  }

  /** The two messages about a protocol: not a scalar, or neither TCP nor UDP in any case. */
  lemma ProtocolReports(errs: seq<ValidationError>, n: Option<Node>)
    ensures n.Some? && n.value.kind != ScalarKind ==>
              AppendProtocol(errs, n) == errs + [ValidationError(NodeLine(n), "protocol must be string")]
    ensures n.Some? && n.value.kind == ScalarKind && ToUpper(n.value.value) != "TCP" && ToUpper(n.value.value) != "UDP" ==>
              AppendProtocol(errs, n) == errs + [ValidationError(n.value.line, "protocol has unsupported value '" + n.value.value + "'")]
  {
    MustBeTexts("protocol");
    assert "protocol" + " must be string" == "protocol must be string";
    assert "protocol" + " has unsupported value '" == "protocol has unsupported value '";
    if n.Some? && n.value.kind == ScalarKind {
      assert ExpectTypeErrors(n, ScalarKind, "protocol") == [];
      assert errs + [] == errs;
    }
  }

  /** A port entry is accepted exactly when both its containerPort and its protocol are. */
  lemma ContainerPortAccepted(errs: seq<ValidationError>, p: Node)
    ensures AppendContainerPort(errs, p) == errs <==>
              AppendPortValue([], Lookup(p, "containerPort")) == [] && AppendProtocol([], Lookup(p, "protocol")) == []
  {
    var a := AppendPortValue([], Lookup(p, "containerPort"));
    ContainerPortOnlyAppends(errs, p);
    PortValueAccepted([], Lookup(p, "containerPort"));
    ProtocolOnlyAppends(a, Lookup(p, "protocol"));
  }

  /** A ports list is accepted exactly when each of its items is. */
  lemma PortItemsAccepted(errs: seq<ValidationError>, items: seq<Node>, j: nat)
    requires j <= |items|
    ensures AppendPortItems(errs, items, j) == errs <==> forall k :: 0 <= k < j ==> AppendPortItem([], items[k]) == []
  {
    PortItemsOnlyAppends(errs, items, j);
    NoPortItemErrors(items, j);
  }

  /** A port item that is not a mapping is reported and not looked into. */
  lemma PortItemReports(errs: seq<ValidationError>, p: Node)
    ensures p.kind != MappingKind ==> AppendPortItem(errs, p) == errs + [ValidationError(p.line, "containers.ports must be array")]
  {
    MustBeTexts("containers.ports");
    assert "containers.ports" + " must be array" == "containers.ports must be array";
  }

  /** A list of error lists joined in order. */
  function Concat(parts: seq<seq<ValidationError>>): seq<ValidationError>
  {
    if parts == [] then [] else Concat(parts[..|parts| - 1]) + parts[|parts| - 1]
  }

  lemma ConcatSnoc(parts: seq<seq<ValidationError>>, last: seq<ValidationError>)
    ensures Concat(parts + [last]) == Concat(parts) + last
  {
    assert (parts + [last])[..|parts|] == parts;
  }

  /** Joined error lists are empty exactly when each of them is. */
  lemma {:induction false} ConcatEmpty(parts: seq<seq<ValidationError>>)
    ensures Concat(parts) == [] <==> forall k :: 0 <= k < |parts| ==> parts[k] == []
  {
    if parts != [] {
      var init := parts[..|parts| - 1];
      ConcatEmpty(init);
      assert |Concat(parts)| == |Concat(init)| + |parts[|parts| - 1]|;
      assert forall k :: 0 <= k < |init| ==> init[k] == parts[k];
    }
  }

  /** The errors `check` gives each of the first `j` items, each checked on its own, in order. */
  function Parts(check: Node -> seq<ValidationError>, items: seq<Node>, j: nat): seq<seq<ValidationError>>
    requires j <= |items|
  {
    if j == 0 then [] else Parts(check, items, j - 1) + [check(items[j - 1])]
  }

  lemma {:induction false} PartsAt(check: Node -> seq<ValidationError>, items: seq<Node>, j: nat)
    requires j <= |items|
    ensures |Parts(check, items, j)| == j
    ensures forall k :: 0 <= k < j ==> Parts(check, items, j)[k] == check(items[k])
  {
    if j > 0 {
      PartsAt(check, items, j - 1);
    }
  }

  /** The errors of a ports list are those of its items, each checked on its own, in order. */
  lemma {:induction false} PortItemsConcat(items: seq<Node>, j: nat)
    requires j <= |items|
    ensures AppendPortItems([], items, j) == Concat(Parts(p => AppendPortItem([], p), items, j))
  {
    if j > 0 {
      PortItemsConcat(items, j - 1);
      PortItemOnlyAppends(AppendPortItems([], items, j - 1), items[j - 1]);
      ConcatSnoc(Parts(p => AppendPortItem([], p), items, j - 1), AppendPortItem([], items[j - 1]));
    }
  }

  lemma NoPortItemErrors(items: seq<Node>, j: nat)
    requires j <= |items|
    ensures AppendPortItems([], items, j) == [] <==> forall k :: 0 <= k < j ==> AppendPortItem([], items[k]) == []
  {
    PortItemsConcat(items, j);
    PartsAt(p => AppendPortItem([], p), items, j);
    ConcatEmpty(Parts(p => AppendPortItem([], p), items, j));
  }

  /**
   ports is optional and must be a list; a list gives the errors of its
   items, each checked on its own, in order.
   */
  lemma PortsFieldReports(errs: seq<ValidationError>, n: Option<Node>)
    ensures n.None? ==> AppendPortsField(errs, n) == errs
    ensures n.Some? && n.value.kind != SequenceKind ==>
              AppendPortsField(errs, n) == errs + [ValidationError(NodeLine(n), "containers.ports must be list")]
    ensures n.Some? && n.value.kind == SequenceKind ==>
              AppendPortsField(errs, n)
              == errs + Concat(Parts(p => AppendPortItem([], p), n.value.content, |n.value.content|))
  {
    MustBeTexts("containers.ports");
    assert "containers.ports" + " must be list" == "containers.ports must be list";
    if n.Some? && n.value.kind == SequenceKind {
      var c := n.value.content;
      assert ExpectTypeErrors(n, SequenceKind, "containers.ports") == [];
      assert errs + [] == errs;
      PortItemsOnlyAppends(errs, c, |c|);
      PortItemsConcat(c, |c|);
    } else if n.Some? {
      assert ExpectTypeErrors(n, SequenceKind, "containers.ports")
             == [ValidationError(NodeLine(n), MustBe("containers.ports", "list"))];
    }
  }

  // ---------------------------------------------------------------------
  // validateProbe

  /** A probe path is accepted exactly when it is a scalar starting with '/'. */
  lemma ProbePathAccepted(errs: seq<ValidationError>, n: Option<Node>, field: string)
    ensures AppendProbePath(errs, n, field) == errs <==>
              n.Some? && n.value.kind == ScalarKind && |n.value.value| > 0 && n.value.value[0] == '/'
  {
    ProbePathOnlyAppends(errs, n, field);
    if n.Some? && |n.value.value| > 0 {
      assert HasPrefix(n.value.value, "/") <==> n.value.value[0] == '/';
    }
  }

  /** The two messages about a probe path that is missing or not a scalar. */
  lemma ProbePathReports(errs: seq<ValidationError>, n: Option<Node>, field: string)
    ensures n.None? ==> AppendProbePath(errs, n, field) == errs + [ValidationError(0, field + ".httpGet.path is required")]
    ensures n.Some? && n.value.kind != ScalarKind ==>
              AppendProbePath(errs, n, field) == errs + [ValidationError(NodeLine(n), field + ".httpGet.path must be string")]
  {
    var f := field + ".httpGet.path";
    MustBeTexts(f);
    assert Required(f) == field + ".httpGet.path is required" by {
      assert f + " is required" == field + (".httpGet.path" + " is required");
    }
    assert f + " must be string" == field + ".httpGet.path must be string" by {
      assert f + " must be string" == field + (".httpGet.path" + " must be string");
    }
  }

  /**
   A scalar probe path that does not start with '/' is reported with its
   text: "<field>.httpGet.path has invalid format '<path>'".
   */
  lemma ProbePathFormatReported(errs: seq<ValidationError>, n: Option<Node>, field: string)
    ensures n.Some? && n.value.kind == ScalarKind && !HasPrefix(n.value.value, "/") ==>
              AppendProbePath(errs, n, field)
              == errs + [ValidationError(n.value.line, InvalidFormat(field + ".httpGet.path", n.value.value))]
  {
    if n.Some? && n.value.kind == ScalarKind {
      assert ExpectTypeErrors(n, ScalarKind, field + ".httpGet.path") == [];
      assert errs + [] == errs;
    }
  }

  /**
   A probe port is accepted exactly when it is a scalar tagged !!int whose
   text parses to a number from 1 to 65535: a quoted "80" is refused.
   */
  lemma ProbePortAccepted(errs: seq<ValidationError>, n: Option<Node>, field: string)
    ensures AppendProbePort(errs, n, field) == errs <==>
              && n.Some? && n.value.kind == ScalarKind && n.value.tag == "!!int"
              && Atoi(n.value.value).Some? && 1 <= Atoi(n.value.value).value <= 65535
    ensures n.Some? && (n.value.kind != ScalarKind || n.value.tag != "!!int") ==>
              AppendProbePort(errs, n, field) == errs + [ValidationError(n.value.line, "port must be int")]
  {
    MustBeTexts("port");
    assert "port" + " must be int" == "port must be int";
  }

  /** The messages about a probe port that is missing, does not parse, or is out of range. */
  lemma ProbePortReports(errs: seq<ValidationError>, n: Option<Node>, field: string)
    ensures n.None? ==> AppendProbePort(errs, n, field) == errs + [ValidationError(0, field + ".httpGet.port is required")]
    ensures n.Some? && n.value.kind == ScalarKind && n.value.tag == "!!int" && Atoi(n.value.value).None? ==>
              AppendProbePort(errs, n, field) == errs + [ValidationError(n.value.line, "port must be int")]
    ensures n.Some? && n.value.kind == ScalarKind && n.value.tag == "!!int" && Atoi(n.value.value).Some?
            && (Atoi(n.value.value).value < 1 || Atoi(n.value.value).value > 65535) ==>
              AppendProbePort(errs, n, field) == errs + [ValidationError(n.value.line, "port value out of range")]
  {
    MustBeTexts("port");
    assert "port" + " must be int" == "port must be int";
    assert Required(field + ".httpGet.port") == field + ".httpGet.port is required" by {
      assert field + ".httpGet.port" + " is required" == field + (".httpGet.port" + " is required");
    }
  }

  /**
   A probe stops at the first structural failure: a probe that is not a
   mapping, or whose httpGet is missing or not a mapping, gets that one
   error and nothing about path or port.
   */
  lemma ProbeStopsEarly(errs: seq<ValidationError>, n: Node, field: string)
    ensures n.kind != MappingKind ==>
              AppendProbe(errs, n, field) == errs + [ValidationError(NodeLine(Some(n)), field + " must be object")]
    ensures n.kind == MappingKind && Lookup(n, "httpGet").None? ==>
              AppendProbe(errs, n, field) == errs + [ValidationError(0, field + ".httpGet is required")]
    ensures n.kind == MappingKind && Lookup(n, "httpGet").Some? && Lookup(n, "httpGet").value.kind != MappingKind ==>
              AppendProbe(errs, n, field)
              == errs + [ValidationError(NodeLine(Lookup(n, "httpGet")), field + ".httpGet must be object")]
  {
    MustBeTexts(field);
    MustBeTexts(field + ".httpGet");
    assert Required(field + ".httpGet") == field + ".httpGet is required" by {
      assert field + ".httpGet" + " is required" == field + (".httpGet" + " is required");
    }
    assert field + ".httpGet" + " must be object" == field + ".httpGet must be object" by {
      assert field + ".httpGet" + " must be object" == field + (".httpGet" + " must be object");
    }
    if n.kind == MappingKind {
      assert ExpectTypeErrors(Some(n), MappingKind, field) == [];
      assert errs + [] == errs;
      var httpGet := Lookup(n, "httpGet");
      if httpGet.Some? && httpGet.value.kind != MappingKind {
        assert ExpectTypeErrors(httpGet, MappingKind, field + ".httpGet")
               == [ValidationError(NodeLine(httpGet), MustBe(field + ".httpGet", "object"))];
      }
    }
  }

  /** A probe is accepted exactly when it is a mapping whose httpGet mapping has an accepted path and port. */
  lemma ProbeAccepted(errs: seq<ValidationError>, n: Node, field: string)
    ensures AppendProbe(errs, n, field) == errs <==>
              && n.kind == MappingKind
              && Lookup(n, "httpGet").Some? && Lookup(n, "httpGet").value.kind == MappingKind
              && AppendProbePath([], Lookup(Lookup(n, "httpGet").value, "path"), field) == []
              && AppendProbePort([], Lookup(Lookup(n, "httpGet").value, "port"), field) == []
  {
    ProbeOnlyAppends(errs, n, field);
    if n.kind == MappingKind {
      var httpGet := Lookup(n, "httpGet");
      if httpGet.Some? && httpGet.value.kind == MappingKind {
        var path := Lookup(httpGet.value, "path");
        assert ExpectTypeErrors(Some(n), MappingKind, field) == [];
        assert ExpectTypeErrors(httpGet, MappingKind, field + ".httpGet") == [];
        ProbePathOnlyAppends([], path, field);
        ProbePathAccepted([], path, field);
      }
    }
  }

  // ---------------------------------------------------------------------
  // validateResources and validateResObj

  /** cpu is accepted exactly when absent or a scalar tagged !!int: a quoted "500" is refused. */
  lemma CpuAccepted(errs: seq<ValidationError>, n: Option<Node>)
    ensures AppendCpu(errs, n) == errs <==> n.None? || (n.value.kind == ScalarKind && n.value.tag == "!!int")
    ensures n.Some? && (n.value.kind != ScalarKind || n.value.tag != "!!int") ==>
              AppendCpu(errs, n) == errs + [ValidationError(n.value.line, "cpu must be int")]
  {
    MustBeTexts("cpu");
    assert "cpu" + " must be int" == "cpu must be int";
  }

  /** memory is accepted exactly when absent or a scalar of digits followed by Gi, Mi or Ki. */
  lemma MemoryAccepted(errs: seq<ValidationError>, n: Option<Node>)
    ensures AppendMemory(errs, n) == errs <==>
              n.None? || (n.value.kind == ScalarKind && exists d, u :: MemoryParts(n.value.value, d, u))
  {
    if n.Some? {
      MemoryQuantityIff(n.value.value);
    }
  }

  /** The two messages about memory: not a scalar, or not a quantity. */
  lemma MemoryReports(errs: seq<ValidationError>, n: Option<Node>)
    ensures n.Some? && n.value.kind != ScalarKind ==>
              AppendMemory(errs, n) == errs + [ValidationError(n.value.line, "memory must be string")]
    ensures n.Some? && n.value.kind == ScalarKind && !MemoryQuantity(n.value.value) ==>
              AppendMemory(errs, n) == errs + [ValidationError(n.value.line, "memory has invalid format '" + n.value.value + "'")]
  {
    MustBeTexts("memory");
    assert "memory" + " must be string" == "memory must be string";
    assert "memory" + " has invalid format '" == "memory has invalid format '";
  }

  /**
   A resource object is accepted exactly when it is a mapping whose cpu and
   memory are accepted; no other key is looked at.
   */
  lemma ResObjAccepted(errs: seq<ValidationError>, n: Node, field: string)
    ensures AppendResObj(errs, n, field) == errs <==>
              n.kind == MappingKind && AppendCpu([], Lookup(n, "cpu")) == [] && AppendMemory([], Lookup(n, "memory")) == []
  {
    ResObjOnlyAppends(errs, n, field);
    if n.kind == MappingKind {
      assert ExpectTypeErrors(Some(n), MappingKind, field) == [];
      CpuAccepted([], Lookup(n, "cpu"));
    }
  }

  /** A resource object that is not a mapping is reported under its own field name. */
  lemma ResObjNotObject(errs: seq<ValidationError>, n: Node, field: string)
    ensures n.kind != MappingKind ==> AppendResObj(errs, n, field) == errs + [ValidationError(NodeLine(Some(n)), field + " must be object")]
  {
    MustBeTexts(field);
  }

  /** resources is required and must be a mapping; a mapping is checked by its requests and limits. */
  lemma ResourcesFieldReports(errs: seq<ValidationError>, n: Option<Node>)
    ensures n.None? ==> AppendResourcesField(errs, n) == errs + [ValidationError(0, "containers.resources is required")]
    ensures n.Some? && n.value.kind != MappingKind ==>
              AppendResourcesField(errs, n) == errs + [ValidationError(NodeLine(n), "containers.resources must be object")]
    ensures n.Some? && n.value.kind == MappingKind ==> AppendResourcesField(errs, n) == AppendResources(errs, n.value)
  {
    MustBeTexts("containers.resources");
    assert "containers.resources" + " must be object" == "containers.resources must be object";
    assert Required("containers.resources") == "containers.resources is required";
    if n.Some? && n.value.kind == MappingKind {
      assert ExpectTypeErrors(n, MappingKind, "containers.resources") == [];
      assert errs + [] == errs;
    } else if n.Some? {
      assert ExpectTypeErrors(n, MappingKind, "containers.resources")
             == [ValidationError(NodeLine(n), MustBe("containers.resources", "object"))];
    }
  }

  /** resources are accepted exactly when they are a mapping whose limits and requests are. */
  lemma ResourcesFieldAccepted(errs: seq<ValidationError>, n: Option<Node>)
    ensures AppendResourcesField(errs, n) == errs <==>
              n.Some? && n.value.kind == MappingKind && AppendResources([], n.value) == []
  {
    ResourcesFieldOnlyAppends(errs, n);
    if n.Some? && n.value.kind == MappingKind {
      assert ExpectTypeErrors(n, MappingKind, "containers.resources") == [];
    }
  }

  /** A resources mapping is accepted exactly when its limits and its requests each are. */
  lemma ResourcesAccepted(errs: seq<ValidationError>, r: Node)
    ensures AppendResources(errs, r) == errs <==>
              && AppendResObjField([], Lookup(r, "limits"), "containers.resources.limits") == []
              && AppendResObjField([], Lookup(r, "requests"), "containers.resources.requests") == []
  {
    ResourcesInOrder(errs, r);
  }
}
