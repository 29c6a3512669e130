/**
 Validation errors, the message shapes main.go builds with fmt.Sprintf, and
 the rendering of one error as main prints it.
 */
module Report {
  import opened Wrappers
  import opened Text

  /** One rule violation: the source line (0 when there is none) and the message. */
  datatype ValidationError = ValidationError(line: int, msg: string)

  function Required(field: string): string { field + " is required" }

  function MustBe(field: string, what: string): string { field + " must be " + what }

  function Unsupported(field: string, value: string): string
  {
    field + " has unsupported value '" + value + "'"
  }

  function InvalidFormat(field: string, value: string): string
  {
    field + " has invalid format '" + value + "'"
  }

  /** The five "must be" texts the code writes, joined the way Sprintf renders them. */
  lemma MustBeTexts(field: string)
    ensures MustBe(field, "string") == field + " must be string"
    ensures MustBe(field, "object") == field + " must be object"
    ensures MustBe(field, "list") == field + " must be list"
    ensures MustBe(field, "int") == field + " must be int"
    ensures MustBe(field, "array") == field + " must be array"
  {
    assert " must be " + "array" == " must be array";
    assert " must be " + "string" == " must be string";
    assert " must be " + "object" == " must be object";
    assert " must be " + "list" == " must be list";
    assert " must be " + "int" == " must be int";
  }

  /** One output line: the bare message for line 0, else `<base>:<line> <message>`. */
  function FormatError(base: string, e: ValidationError): string
  {
    if e.line == 0 then e.msg else base + ":" + Itoa(e.line) + " " + e.msg
  }

  /**
   The line number can be read back from a printed error: after the file
   name and the colon comes a decimal number that Atoi turns into the line,
   then a space and the message; an error without a line is its message alone.
   */
  lemma FormatErrorReadsBack(base: string, e: ValidationError)
    requires MinInt64 <= e.line <= MaxInt64
    ensures e.line == 0 ==> FormatError(base, e) == e.msg
    ensures e.line != 0 ==>
              exists d :: FormatError(base, e) == base + ":" + d + " " + e.msg && Atoi(d) == Some(e.line)
  {
    if e.line != 0 {
      AtoiOfItoa(e.line);
      assert FormatError(base, e) == base + ":" + Itoa(e.line) + " " + e.msg;
    }
  }
}
