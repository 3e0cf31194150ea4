/**
 * The two pieces of the Supabase helper file with behaviour of their own:
 * mapping an error to the message shown to the user, and the storage path
 * of an invoice attachment. The client, the upload and the public URL are
 * remote calls and are not part of this model.
 */
module Supabase {
  import opened Wrappers
  import opened JsString

  /** The `code` and `message` fields of an error thrown by the Supabase client. */
  datatype SupabaseError = SupabaseError(code: Option<string>, message: Option<string>)

  /** The messages for the error codes the dashboard recognises; `None` for any other code. */
  function KnownCodeMessage(code: Option<string>): (msg: Option<string>) {
    if code == Some("PGRST116") then Some("No data found")
    else if code == Some("23505") then Some("This record already exists")
    else if code == Some("23503") then Some("Related record not found")
    else None
  }

  /** `handleSupabaseError(error)`; `None` is a null or undefined error. */
  function HandleSupabaseError(error: Option<SupabaseError>): (msg: string)
    ensures msg != ""
    ensures error.Some? && error.value.code == Some("PGRST116") ==> msg == "No data found"
    ensures error.Some? && error.value.code == Some("23505") ==> msg == "This record already exists"
    ensures error.Some? && error.value.code == Some("23503") ==> msg == "Related record not found"
    ensures (error.None? || KnownCodeMessage(error.value.code).None?) ==>
      if error.Some? && error.value.message.Some? && error.value.message.value != ""
      then msg == error.value.message.value
      else msg == "An unexpected error occurred"
  {
    if error.Some? && error.value.code == Some("PGRST116") then "No data found"
    else if error.Some? && error.value.code == Some("23505") then "This record already exists"
    else if error.Some? && error.value.code == Some("23503") then "Related record not found"
    else if error.Some? && error.value.message.Some? && error.value.message.value != "" then error.value.message.value
    else "An unexpected error occurred"
  }

  /** A recognised code decides the message whatever the error's own message says. */
  lemma KnownCodeTakesPrecedence(code: string, m1: Option<string>, m2: Option<string>)
    requires KnownCodeMessage(Some(code)).Some?
    ensures HandleSupabaseError(Some(SupabaseError(Some(code), m1)))
         == HandleSupabaseError(Some(SupabaseError(Some(code), m2)))
         == KnownCodeMessage(Some(code)).value
  {
  }

  /** `name.split('.').pop()`: the text after the last `.`, or all of `name` when it has none. */
  function LastDotSegment(name: string): (ext: string)
    ensures '.' !in ext
    ensures |ext| <= |name| && name[|name| - |ext|..] == ext
    ensures |ext| < |name| ==> name[|name| - |ext| - 1] == '.'
  {
    if name == [] then []
    else if name[|name| - 1] == '.' then []
    else LastDotSegment(name[..|name| - 1]) + [name[|name| - 1]]
  }

  /** A name without a dot is its own extension. */
  lemma NoDotIsOwnExtension(name: string)
    requires '.' !in name
    ensures LastDotSegment(name) == name
  {
  }

  /** A name with a dot is some base name, a `.` and the extension. */
  lemma DotSplitsName(name: string)
    requires '.' in name
    ensures exists base :: name == base + "." + LastDotSegment(name)
  {
    var ext := LastDotSegment(name);
    var n := |name| - |ext|;
    var base := name[..n - 1];
    assert name == base + "." + ext;
  }

  /** The storage path `uploadInvoiceAttachment` uploads `fileName` to, at time `nowMs`. */
  function AttachmentPath(fileName: string, invoiceId: string, nowMs: nat): (path: string)
    ensures var stamp := NumberToString(nowMs, 10);
      && ParseDigits(stamp, 10) == nowMs
      && path == "invoices/" + invoiceId + "-" + stamp + "." + LastDotSegment(fileName)
  {
    ParseNumberToString(nowMs, 10);
    "invoices/" + invoiceId + "-" + NumberToString(nowMs, 10) + "." + LastDotSegment(fileName)
  }
}
