/**
 * The format dispatch of the conversion service
 * (src/main/java/de/thm/spec2tool/service/ConversionServiceImpl.java): an
 * OpenAPI document is handed to the reference mapper when the requested
 * format is "openapi" in any letter case; every other format, null included,
 * is refused without looking at the document.
 */
module ConversionService {
  import opened Wrappers
  import opened OpenApi
  import Mapper

  /** getSupportedApiSpec (:36-38). */
  function SupportedApiSpecs(): seq<string>
  {
    ["openapi"]
  }

  /**
   * The case folding String.equalsIgnoreCase applies to a character:
   * upper-case, then lower-case. ASCII letters fold to lower case, and so do
   * U+0130 and U+0131, the two Turkish i's; no other character folds onto a
   * letter of "openapi".
   */
  function Fold(c: char): char
  {
    if 'A' <= c <= 'Z' then (c as int + 32) as char
    else if c == 'İ' || c == 'ı' then 'i'
    else c
  }

  function FoldAll(s: string): string
  {
    seq(|s|, i requires 0 <= i < |s| => Fold(s[i]))
  }

  /** String.equalsIgnoreCase: a null argument is never equal. */
  predicate EqualsIgnoreCase(a: string, b: Option<string>) {
    b.Some? && |a| == |b.value| && forall i :: 0 <= i < |a| ==> Fold(a[i]) == Fold(b.value[i])
  }

  /** The service's test on the requested format (:27). */
  predicate Accepts(format: Option<string>) {
    EqualsIgnoreCase("openapi", format)
  }

  /** convert (:26-33): delegate to the mapper, or refuse with NotImplementedException. */
  function Convert(doc: Option<Document>, format: Option<string>): Result<ToolSet, Error>
  {
    if Accepts(format) then Mapper.ConvertDocument(doc) else Err(NotImplemented(format))
  }

  /** A format is accepted exactly when some supported format equals it ignoring case. */
  lemma AcceptsSupported(format: Option<string>)
    ensures Accepts(format) <==>
      exists i :: 0 <= i < |SupportedApiSpecs()| && EqualsIgnoreCase(SupportedApiSpecs()[i], format)
  {
    if Accepts(format) {
      assert EqualsIgnoreCase(SupportedApiSpecs()[0], format);
    }
  }

  /** The accepted spellings are exactly those that fold to "openapi": "OpenAPI" and "OPENAPI" among them. */
  lemma AcceptedSpellings(f: string)
    ensures Accepts(Some(f)) <==> FoldAll(f) == "openapi"
    ensures Accepts(Some("OpenAPI")) && Accepts(Some("OPENAPI"))
  {
    var o := "openapi";
    assert forall i :: 0 <= i < |o| ==> Fold(o[i]) == o[i];
    if FoldAll(f) == o {
      assert forall i :: 0 <= i < |o| ==> Fold(f[i]) == FoldAll(f)[i];
    }
    if Accepts(Some(f)) {
      assert forall i :: 0 <= i < |o| ==> FoldAll(f)[i] == o[i];
    }
    var mixed, upper := "OpenAPI", "OPENAPI";
    assert forall i :: 0 <= i < |o| ==> Fold(mixed[i]) == Fold(o[i]) && Fold(upper[i]) == Fold(o[i]);
  }

  /**
   * An accepted format hands the document, unchanged, to the mapper; any other
   * format, null included, fails with NotImplemented whatever the document.
   */
  lemma Dispatch(doc: Option<Document>, other: Option<Document>, format: Option<string>)
    ensures Accepts(format) ==> Convert(doc, format) == Mapper.ConvertDocument(doc)
    ensures !Accepts(format) ==> Convert(doc, format) == Err(NotImplemented(format)) == Convert(other, format)
    ensures !Accepts(None)
    ensures Convert(doc, format).Ok? ==> Accepts(format) && doc.Some?
  {
  }
}
