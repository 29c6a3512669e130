# Pod manifest validator, modelled in Dafny

The repository is a command-line validator for Kubernetes-style Pod manifests
written in YAML. It parses the file into a YAML node tree and walks the tree.
Every broken rule appends one `ValidationError{Line, Msg}` to a shared list,
in the order found. The rules cover:

- `apiVersion` must be `v1` and `kind` must be `Pod`.
- `metadata` has a `name`, an optional `namespace` and optional `labels`.
- `spec` has an optional `os` and the list of `containers`.
- Each container has a snake-case name, an image from `registry.bigbrother.io`,
  optional ports, optional readiness and liveness probes, and resources
  (`cpu` and `memory` limits and requests).

This project models that walk, the core of `main.go`:

- **Yaml**: the parsed node (kind, tag, value, content, line), `nodeLine`, and
  `getMap`. Mapping content alternates keys and values, as the parser stores it.
- **Text**: the Go library string functions the rules call. These are
  `strings.TrimSpace`, `ToLower`, `ToUpper`, `HasPrefix` and `strconv.Atoi`,
  with `strconv.Itoa` as the partner of Atoi.
- **Patterns**: the three regular expressions and the port range. Each
  expression becomes a string predicate, with a lemma that ties it to a plain
  description of the strings it matches.
- **Report**: the error record, the message shapes, and how `main` prints
  one error.
- **Rules**: for every validator, a function that takes the error list built
  so far and returns it with the validator's errors appended, in the same
  order as the Go code. It also has the choice of the root mapping.
- **Validator**: the validators as imperative methods, with the same
  branches, early returns, the `break` of the labels loop, and the `continue`
  and `seen` set of the containers loop. Each method is proved to return
  exactly the list its Rules function gives.
- **Appending**: every validator keeps the list it is given and only appends
  to it. What it appends depends on the nodes alone. So no field's check
  stops the checks of the fields after it at the same level, and those
  fields are checked in source order (`TopInOrder`, `ContainerInOrder`,
  `ResourcesInOrder`). A failed kind check skips only the checks under that
  node, and validateProbe returns early (`ProbeStopsEarly`).
- **Properties**: for each field and each level of the document (the
  document, metadata, spec, the containers list, one container, a port, a
  probe, resources), exactly when it is accepted (nothing is appended). For
  each message the validators can report, which input gives it and at which
  line. Two lemmas name their messages through the Report functions
  instead of writing the text out: `TopAllMissing` uses `Required`, whose
  texts `FixedValueReports` and `TopFieldsMissing` write out, and
  `ProbePathFormatReported` uses `InvalidFormat` on the composed field
  name.

`main.go` does not require a non-empty containers list, does not
require at least one of requests and limits, and does not reject unknown
resource keys. It also has no "duplicate container name" message. So an empty
containers list is accepted. A repeated container name is reported as
`containers.name has invalid format '<name>'`. A non-mapping container is
reported as `spec.containers must be array`. Unknown keys are ignored
everywhere.

## Model

| member | source | states |
|---|---|---|
| Yaml.NodeLine | main.go:120-125 | the reported line is the node's line when there is a node with a positive line, and 0 otherwise; never negative |
| Yaml.LookupFirstMatch | main.go:87-99 | a lookup finds a value exactly when the node is a mapping with a key of that text at an even position that has a value after it; the value is the one after the first such key |
| Yaml.LookupIgnoresDangling | main.go:91-97 | the last element of odd-length mapping content is never read as a key: the lookup is the same without it |
| Yaml.GetMap | main.go:87-99 | the index loop returns nothing for a nil node and otherwise exactly the first-match lookup |
| Text.BlankIff | main.go:172-177 | TrimSpace leaves the empty string exactly when every character is Unicode white space |
| Text.ToLowerIs | main.go:250-251 | lower-casing keeps the length and maps each character in place, so comparing the lowered text with a word is a letter-by-letter comparison |
| Text.AtoiOfItoa | main.go:341-346 | Atoi reads back every 64-bit number written in decimal, with or without a minus sign |
| Patterns.SnakeCaseIff | main.go:260 | a name matches `^[a-z]+(_[a-z]+)*$` exactly when it is non-empty, starts with a lower-case letter, has only lower-case letters and underscores, does not end with an underscore and has no two underscores in a row |
| Patterns.ImageRefIff | main.go:261 | an image matches `^registry\.bigbrother\.io/[^:]+:.+$` exactly when it is that prefix, a non-empty path without colons, a colon, and a non-empty tag without line breaks |
| Patterns.MemoryQuantityIff | main.go:262 | a memory value matches `^[0-9]+(Gi\|Mi\|Ki)$` exactly when it is one or more digits followed by one of the three units |
| Report.FormatErrorReadsBack | main.go:63-70 | an error without a line prints as its message alone; otherwise the printed line is the file name, a colon, a decimal number that Atoi reads back as the line, a space and the message |
| Rules.ExpectTypeErrors | main.go:101-118 | no error exactly when the node is present with the wanted kind; otherwise exactly one error "<field> must be <string/object/list/value>" at nodeLine |
| Rules.SelectRoot | main.go:45-58 | a root is chosen exactly when the tree is a mapping or a document whose first child is a mapping; the chosen node is always a mapping |
| Rules.NameUsedBeforeNext | main.go:236-243 | after each item, the set of names seen grows by exactly that item's scalar name, if it has one |
| Validator.ExpectType | main.go:101-118 | returns true exactly when the node is present with the wanted kind, and appends exactly the errors of ExpectTypeErrors |
| Validator.ValidateTop | main.go:127-165 | the new list is the old one followed by the errors for apiVersion, kind, metadata and spec, in that order |
| Validator.ValidateFixedValue | main.go:128-148 | appends exactly the apiVersion or kind errors: missing, not a scalar, or an unsupported value |
| Validator.ValidateObjectMeta | main.go:167-198 | appends exactly the errors for name, namespace and labels, in that order |
| Validator.ValidateMetaName | main.go:168-178 | appends exactly the metadata.name errors: missing, not a scalar, or blank |
| Validator.ValidateLabels | main.go:184-197 | the loop with `break` appends at most one error, at the first label whose value is not a scalar |
| Validator.ValidatePodSpec | main.go:200-247 | appends exactly the errors for os and then for containers |
| Validator.ValidateContainerList | main.go:226-245 | the loop over containers, with its `seen` set, appends exactly the per-item errors in list order, including the report of each repeated name |
| Validator.ValidateOSName | main.go:249-257 | appends an error exactly when the lower-cased name is neither linux nor windows |
| Validator.ValidateContainer | main.go:267-330 | appends exactly the errors for name, image, ports, readinessProbe, livenessProbe and resources, in that order |
| Validator.ValidateContainerName | main.go:268-284 | appends exactly the container name errors: missing, not a scalar, blank, or not snake case |
| Validator.ValidateImage | main.go:286-295 | appends exactly the image errors: missing, not a scalar, or a bad format |
| Validator.ValidatePorts | main.go:297-311 | the loop over ports appends exactly the per-item errors in list order; non-mapping items are reported and skipped |
| Validator.ValidateContainerPort | main.go:332-365 | appends exactly the containerPort errors and then the protocol errors |
| Validator.ValidateProbe | main.go:367-415 | appends exactly the probe errors, returning early where the source returns |
| Validator.ValidateResourcesField | main.go:323-329 | appends exactly the resources errors: missing, not a mapping, or those of limits and requests |
| Validator.ValidateResources | main.go:417-424 | appends exactly the errors of limits and then of requests |
| Validator.ValidateResObj | main.go:426-451 | appends exactly the errors of a resource object: not a mapping, or those of cpu and memory |
| Appending.FixedValueOnlyAppends | main.go:128-148 | the apiVersion or kind check keeps the given list and appends errors that depend on the node alone |
| Appending.MetaNameOnlyAppends | main.go:168-178 | the metadata.name check only appends |
| Appending.LabelsOnlyAppends | main.go:184-197 | the labels check only appends |
| Appending.ObjectMetaOnlyAppends | main.go:167-198 | validateObjectMeta only appends |
| Appending.OsOnlyAppends | main.go:202-219 | the os check only appends |
| Appending.ContainerNameOnlyAppends | main.go:268-284 | the container name check only appends |
| Appending.ImageOnlyAppends | main.go:286-295 | the image check only appends |
| Appending.ProtocolOnlyAppends | main.go:353-364 | the protocol check only appends |
| Appending.PortValueOnlyAppends | main.go:333-351 | the containerPort check only appends |
| Appending.ContainerPortOnlyAppends | main.go:332-365 | validateContainerPort only appends |
| Appending.PortItemOnlyAppends | main.go:300-309 | one ports item only appends |
| Appending.PortItemsOnlyAppends | main.go:300-309 | any prefix of the ports loop only appends |
| Appending.PortsFieldOnlyAppends | main.go:297-311 | the ports field only appends |
| Appending.ProbePathOnlyAppends | main.go:380-388 | the probe path check only appends |
| Appending.ProbeOnlyAppends | main.go:367-415 | validateProbe only appends |
| Appending.ProbeFieldOnlyAppends | main.go:313-321 | an optional probe field only appends |
| Appending.CpuOnlyAppends | main.go:430-437 | the cpu check only appends |
| Appending.MemoryOnlyAppends | main.go:438-450 | the memory check only appends |
| Appending.ResObjOnlyAppends | main.go:426-451 | validateResObj only appends |
| Appending.ResObjFieldOnlyAppends | main.go:418-423 | an optional limits or requests field only appends |
| Appending.ResourcesOnlyAppends | main.go:417-424 | validateResources only appends |
| Appending.ResourcesFieldOnlyAppends | main.go:323-329 | the resources field only appends |
| Appending.ContainerInOrder | main.go:267-330 | the container's errors are those of name, image, ports, readinessProbe, livenessProbe and resources, each computed on its own and joined in that order |
| Appending.ContainerOnlyAppends | main.go:267-330 | validateContainer only appends |
| Appending.ContainerItemOnlyAppends | main.go:227-244 | one containers item only appends |
| Appending.ContainerItemsOnlyAppends | main.go:227-244 | any prefix of the containers loop only appends |
| Appending.ContainersFieldOnlyAppends | main.go:221-246 | the containers field only appends |
| Appending.PodSpecOnlyAppends | main.go:200-247 | validatePodSpec only appends |
| Appending.MetadataFieldOnlyAppends | main.go:150-156 | the metadata field only appends |
| Appending.SpecFieldOnlyAppends | main.go:158-164 | the spec field only appends |
| Appending.TopInOrder | main.go:127-165 | the document's errors are those of apiVersion, kind, metadata and spec, each computed on its own and joined in that order, so no field's check stops those of the fields after it |
| Appending.TopOnlyAppends | main.go:127-165 | validateTop keeps the given list as a prefix and appends errors that depend on the document alone |
| Appending.ResourcesInOrder | main.go:417-424 | limits is checked before requests, each on its own |
| Properties.FixedValueAccepted | main.go:129-148 | apiVersion or kind is accepted exactly when it is a scalar equal to the wanted value, case included |
| Properties.FixedValueReports | main.go:129-148 | missing gives "<field> is required" at line 0; not a scalar gives "<field> must be string"; another value gives "<field> has unsupported value '<value>'" at its line |
| Properties.TopAllMissing | main.go:127-165 | a mapping with none of the four fields gets exactly the four "<field> is required" errors at line 0, in the order apiVersion, kind, metadata, spec |
| Properties.TopAccepted | main.go:127-165 | the document is accepted exactly when each of its four parts is |
| Properties.TopFieldsNotObject | main.go:152-164 | metadata or spec that is not a mapping gives "metadata must be object" or "spec must be object" at its line, and nothing below it is checked |
| Properties.TopFieldsMissing | main.go:151-161 | a missing metadata gives "metadata is required" and a missing spec gives "spec is required", both at line 0 |
| Properties.MetadataFieldAccepted | main.go:151-156 | metadata is accepted exactly when it is a mapping whose object metadata appends nothing |
| Properties.SpecFieldAccepted | main.go:159-164 | spec is accepted exactly when it is a mapping whose pod spec appends nothing |
| Properties.MetaNameAccepted | main.go:168-178 | metadata.name is accepted exactly when it is a scalar with at least one character that is not white space |
| Properties.MetaNameReports | main.go:168-178 | a missing name gives "metadata.name is required" at line 0; a non-scalar one gives "metadata.name must be string" at its line; a blank scalar gives "name is required" at its line |
| Properties.NamespaceReports | main.go:180-182 | a namespace is accepted exactly when absent or a scalar; otherwise "metadata.namespace must be string" is reported at its line |
| Properties.FirstNonScalarLabelIsFirst | main.go:186-195 | the labels loop stops at the first even position whose value is not a scalar, and finds nothing exactly when all values are scalars |
| Properties.LabelsAccepted | main.go:184-197 | labels are accepted exactly when absent or a mapping of scalar values; otherwise the one error "metadata.labels has invalid format ''" is at the first non-scalar value |
| Properties.LabelsNotObject | main.go:184-186 | labels that are not a mapping give "metadata.labels must be object" at their line and nothing else |
| Properties.ObjectMetaAccepted | main.go:167-198 | the object metadata is accepted exactly when its name, namespace and labels each append nothing |
| Properties.OsNameAccepted | main.go:249-257 | an OS name is accepted exactly when it lower-cases to linux or windows; a refused name is echoed as written, not lower-cased |
| Properties.OsAcceptedIff | main.go:250-251 | the accepted names are exactly the five- or seven-character strings that lower-case letter by letter to linux or windows |
| Properties.OsExamplesAccepted | main.go:250-251 | Linux and WINDOWS are accepted |
| Properties.OsExamplesRefused | main.go:250-251 | "linux " with a trailing space and darwin are refused |
| Properties.OsReports | main.go:202-219 | a missing os gives nothing; a scalar os is checked directly; a mapping needs a scalar name; any other kind gives "spec.os must be object" |
| Properties.SnakeCaseNotBlank | main.go:273-278 | a snake-case name is never blank, so the blank check and the format check never both fire |
| Properties.ContainerNameAccepted | main.go:268-284 | a container name is accepted exactly when it is a snake-case scalar |
| Properties.ContainerNameReports | main.go:273-283 | a blank name gives "name is required" at its line; any other refused scalar name gives "containers.name has invalid format '<name>'" |
| Properties.ContainerNameMissing | main.go:269-272 | a missing container name gives "name is required" at line 0; a non-scalar one gives "name must be string" at its line |
| Properties.SnakeCaseExamples | main.go:260 | web, web_app and a_b_c match the container name pattern |
| Properties.NotSnakeCaseExamples | main.go:260 | names with digits, capitals or hyphens, and the empty name, do not match |
| Properties.UnderscoreExamples | main.go:260 | leading, trailing and doubled underscores do not match |
| Properties.RepeatedNameReported | main.go:235-243 | the first container with a name is only validated; a later one with the same scalar name also gets "containers.name has invalid format '<name>'" at its own name's line |
| Properties.ContainerItemNameRule | main.go:235-244 | every mapping item of the containers list is validated as a container; its scalar name is then reported with "containers.name has invalid format '<name>'" exactly when an earlier item has the same scalar name |
| Properties.ContainerAccepted | main.go:267-330 | a container is accepted exactly when its name, image, ports, both probes and resources each append nothing |
| Properties.NonMappingItemSkipped | main.go:228-234 | a non-mapping item gets "spec.containers must be array" and nothing else, and adds no name to the seen set |
| Properties.ContainersFieldReports | main.go:222-225 | containers is required and must be a list, and an empty list is accepted |
| Properties.ContainerItemAccepted | main.go:227-244 | one item of the containers list is accepted exactly when it is a mapping, it is accepted as a container, and its scalar name, if any, was not used by an earlier item |
| Properties.NoContainerItemErrors | main.go:227-245 | the items of a containers list give no errors exactly when each item gives none |
| Properties.ContainerItemsAccepted | main.go:227-245 | the containers loop appends nothing exactly when no item does |
| Properties.ContainersFieldAccepted | main.go:222-246 | the containers field is accepted exactly when it is a list whose items are all mappings accepted as containers, with no scalar name repeated; so an empty list is accepted |
| Properties.PodSpecAccepted | main.go:200-247 | the pod spec is accepted exactly when its os and its containers field each append nothing |
| Properties.ImageAccepted | main.go:286-295 | an image is accepted exactly when it is a scalar matching the registry pattern; otherwise a scalar gets "containers.image has invalid format '<image>'" |
| Properties.ImageReports | main.go:287-290 | a missing image gives "containers.image is required" at line 0; a non-scalar one gives "containers.image must be string" at its line |
| Properties.PortValueAccepted | main.go:333-351 | a containerPort is accepted exactly when it is a scalar that Atoi parses to a number from 1 to 65535 |
| Properties.PortValueReports | main.go:333-351 | missing, not an int, and out of range each give their one error and message |
| Properties.PrintedPortAccepted | main.go:341-351 | every port number from 1 to 65535 written in decimal is accepted |
| Properties.AtoiRefuses | main.go:341 | abc, the empty string, 1e3, "80 " with a space, and a bare minus sign are not numbers |
| Properties.AtoiAccepts | main.go:341 | 8080 and 0 are read as numbers |
| Properties.AtoiAcceptsSign | main.go:341 | a leading plus or minus sign is accepted |
| Properties.ProtocolAccepted | main.go:353-364 | a protocol is accepted exactly when absent or a scalar that upper-cases to TCP or UDP |
| Properties.ProtocolReports | main.go:353-364 | a non-scalar protocol gives "protocol must be string"; a scalar that is neither TCP nor UDP after upper-casing gives "protocol has unsupported value '<v>'" at its line |
| Properties.ContainerPortAccepted | main.go:332-365 | a port entry is accepted exactly when both its containerPort and its protocol are |
| Properties.PortItemsAccepted | main.go:300-309 | a ports list is accepted exactly when each of its items is |
| Properties.PortItemReports | main.go:301-307 | a ports item that is not a mapping gives "containers.ports must be array" at its line and nothing else |
| Properties.PortItemsConcat | main.go:300-309 | the errors of a ports list are the errors of its items, each checked on its own, joined in list order |
| Properties.NoPortItemErrors | main.go:300-309 | the items of a ports list give no errors exactly when each item gives none |
| Properties.PortsFieldReports | main.go:298-311 | absent ports are accepted; ports that are not a list give "containers.ports must be list" at their line; a list gives the errors of its items, each checked on its own, in order |
| Properties.ProbePathAccepted | main.go:380-388 | a probe path is accepted exactly when it is a scalar starting with '/' |
| Properties.ProbePathReports | main.go:380-383 | a missing path gives "<field>.httpGet.path is required" at line 0; a non-scalar one gives "<field>.httpGet.path must be string" at its line |
| Properties.ProbePathFormatReported | main.go:383-388 | a scalar path that does not start with '/' gives "<field>.httpGet.path has invalid format '<path>'" at its line |
| Properties.ProbePortAccepted | main.go:390-414 | a probe port is accepted exactly when it is a scalar tagged !!int that parses to 1..65535; a quoted number is refused with "port must be int" |
| Properties.ProbePortReports | main.go:390-414 | a missing port gives "<field>.httpGet.port is required" at line 0; an !!int scalar that does not parse gives "port must be int"; one outside 1..65535 gives "port value out of range", each at its line |
| Properties.ProbeStopsEarly | main.go:367-378 | a probe that is not a mapping, or whose httpGet is missing or not a mapping, gets that one error and nothing about path or port |
| Properties.ProbeAccepted | main.go:367-415 | a probe is accepted exactly when it is a mapping whose httpGet mapping has an accepted path and port |
| Properties.CpuAccepted | main.go:430-437 | cpu is accepted exactly when absent or a scalar tagged !!int; a quoted "500" gets "cpu must be int" |
| Properties.MemoryAccepted | main.go:438-450 | memory is accepted exactly when absent or a scalar of digits followed by Gi, Mi or Ki |
| Properties.MemoryReports | main.go:438-450 | non-scalar memory gives "memory must be string"; a scalar that is not a quantity gives "memory has invalid format '<v>'", each at its line |
| Properties.ResObjAccepted | main.go:426-451 | a resource object is accepted exactly when it is a mapping whose cpu and memory are accepted; no other key is looked at |
| Properties.ResObjNotObject | main.go:426-429 | a requests or limits value that is not a mapping gives "<field> must be object" at its line and nothing else |
| Properties.ResourcesFieldReports | main.go:323-329 | missing resources give "containers.resources is required" at line 0; non-mapping ones give "containers.resources must be object" at their line; a mapping is checked by its requests and limits |
| Properties.ResourcesFieldAccepted | main.go:323-329 | resources are accepted exactly when they are a mapping whose limits and requests append nothing |
| Properties.ResourcesAccepted | main.go:417-424 | a resources mapping is accepted exactly when its limits and its requests each append nothing |

## Left out

- Argument handling, the usage text and the exit codes of `main` (main.go:22-44, 55-58, 71-73), and `printFatalIOErr` (main.go:76-85): process plumbing with no logic to prove.
- Reading the file and `yaml.Unmarshal`: the model starts from the parsed node tree. Lines and tags are whatever the parser assigned. Aliases and merge keys are not expanded, because the validator does not expand them either.
- Writing errors to standard output: only the text of one printed line is modelled (`Report.FormatError`).
- The regular expression engine: each of the three patterns is a hand-written predicate, with a lemma that says which strings it accepts.
- Text.ToLower: lower-cases ASCII letters, U+0130 and U+212A. Every other character is kept as it is. Its result is only compared with `linux` and `windows`, and for that comparison this gives the same answer as Go's per-rune (simple) case mapping.
- Text.ToUpper: upper-cases ASCII letters only. Its result is only compared with `TCP` and `UDP`, and no non-ASCII character upper-cases to a letter of those words.
- Strings are sequences of characters: invalid UTF-8 byte sequences cannot be represented.
- Text.Atoi: assumes a 64-bit `int`, so a containerPort beyond 64 bits is "must be int", not "out of range".
- Go's `map[string]struct{}` of seen names is a `set<string>`, and `*[]ValidationError` is an error list passed in and returned, not a shared slice.
