/**
 * Step 3 of the registration wizard (app/auth/register/step3Kyc.tsx): the
 * Aadhaar and PAN numbers, and three document uploads checked for file
 * extension and size.
 */
module KycStep {
  import opened Strings
  import opened Draft
  import opened Checks

  // ---------------------------------------------------------------------------
  // Identity numbers
  // ---------------------------------------------------------------------------

  /** `validateAadhaar(value)`: `/^[0-9]{12}$/` */
  predicate IsAadhaar(v: string) {
    |v| == 12 && All(v, IsDigit)
  }

  /** `validatePAN(value)`: `/^[A-Z]{5}[0-9]{4}[A-Z]{1}$/` */
  predicate IsPan(v: string) {
    && |v| == 10
    && (forall i :: 0 <= i < 5 ==> IsUpper(v[i]))
    && (forall i :: 5 <= i < 9 ==> IsDigit(v[i]))
    && IsUpper(v[9])
  }

  /** The Aadhaar input drops every non-digit. */
  function AadhaarInput(raw: string): string {
    Keep(raw, IsDigit)
  }

  /** The PAN input upper-cases, then drops everything but `[A-Z0-9]`. */
  function PanInput(raw: string): string {
    Keep(Upper(raw), IsUpperOrDigit)
  }

  /** Whatever is typed, the stored Aadhaar is valid exactly when twelve digits were typed. */
  lemma AadhaarInputValidIff(raw: string)
    ensures IsAadhaar(AadhaarInput(raw)) <==> |AadhaarInput(raw)| == 12
  {
  }

  /** A PAN typed in lower case, or in any mix of cases, is stored valid. */
  lemma PanInputAcceptsAnyCase(p: string)
    requires |p| == 10
    requires forall i :: 0 <= i < 5 ==> IsLetter(p[i])
    requires forall i :: 5 <= i < 9 ==> IsDigit(p[i])
    requires IsLetter(p[9])
    ensures IsPan(PanInput(p))
  {
    var u := Upper(p);
    assert forall i :: 0 <= i < |u| ==> u[i] == UpperChar(p[i]);
    assert All(u, IsUpperOrDigit);
    assert PanInput(p) == u;
  }

  /** The stored PAN is unchanged by passing it through the input again. */
  lemma PanInputIdempotent(raw: string)
    ensures PanInput(PanInput(raw)) == PanInput(raw)
  {
    var s := PanInput(raw);
    var u := Upper(s);
    assert forall i :: 0 <= i < |s| ==> u[i] == UpperChar(s[i]) == s[i];
    assert u == s;
  }

  // ---------------------------------------------------------------------------
  // Upload checks
  // ---------------------------------------------------------------------------

  /**
   * `name.split(".").pop()`: the text after the last dot, or the whole name
   * when it has no dot.
   */
  function LastSegment(name: string): (r: string)
    ensures |r| <= |name| && name[|name| - |r|..] == r
    ensures '.' !in r
    ensures |r| < |name| ==> name[|name| - |r| - 1] == '.'
  {
    if name == [] then []
    else if name[|name| - 1] == '.' then []
    else
      var init := name[..|name| - 1];
      assert name == init + [name[|name| - 1]];
      LastSegment(init) + [name[|name| - 1]]
  }

  /** A name ending in `.ext`, where `ext` has no dot, has extension `ext`. */
  lemma LastSegmentOfDotted(base: string, ext: string)
    requires '.' !in ext
    ensures LastSegment(base + "." + ext) == ext
  {
    var name := base + "." + ext;
    assert name[|base|] == '.';
    assert name[|name| - |ext|..] == ext;
    assert forall i :: 0 <= i < |ext| ==> name[|base| + 1 + i] == ext[i];
  }

  /** The extension compared against the allowed list: the last segment in lower case. */
  function Extension(name: string): string {
    Lower(LastSegment(name))
  }

  const MiB := 1024 * 1024

  /**
   * `validateFile(file, allowed, maxMB)`: the alert it raises, or None when
   * the file is accepted.
   */
  function ValidateFile(file: FileRef, allowed: seq<string>, maxMB: nat): (r: Option<string>)
    ensures r == None <==> Extension(file.name) in allowed && file.size <= maxMB * MiB
    ensures Extension(file.name) !in allowed ==> r == Some("Allowed formats: " + Join(allowed, ", "))
    ensures Extension(file.name) in allowed && file.size > maxMB * MiB ==>
      r == Some("File too large. Max allowed " + NatToString(maxMB) + "MB")
  {
    if Extension(file.name) !in allowed then Some("Allowed formats: " + Join(allowed, ", "))
    else if file.size > maxMB * MiB then Some("File too large. Max allowed " + NatToString(maxMB) + "MB")
    else None
  }

  /** Allowed extensions and the size limit in MB chosen by `handleFileUpload` per key. */
  function UploadLimits(key: string): (limits: (seq<string>, nat))
    ensures key == "aadhaarUrl" || key == "panUrl" ==> limits == (["jpg", "jpeg", "png", "pdf"], 5)
    ensures key == "photoUrl" ==> limits == (["jpg", "jpeg", "png"], 3)
    ensures key !in {"aadhaarUrl", "panUrl", "photoUrl"} ==> limits == ([], 5)
  {
    if key == "aadhaarUrl" || key == "panUrl" then (["jpg", "jpeg", "png", "pdf"], 5)
    else if key == "photoUrl" then (["jpg", "jpeg", "png"], 3)
    else ([], 5)
  }

  /** The check `handleFileUpload` applies to a file chosen for `key`. */
  function CheckUpload(key: string, file: FileRef): Option<string> {
    ValidateFile(file, UploadLimits(key).0, UploadLimits(key).1)
  }

  /** A key with no limits of its own allows no extension at all. */
  lemma UnknownKeyRejectsAll(key: string, file: FileRef)
    requires key !in {"aadhaarUrl", "panUrl", "photoUrl"}
    ensures CheckUpload(key, file) == Some("Allowed formats: ")
  {
    assert Join([], ", ") == [];
    assert "Allowed formats: " + [] == "Allowed formats: ";
  }

  /** A photo may not be a PDF, while the Aadhaar and PAN scans may. */
  lemma PdfOnlyForDocuments(base: string, size: nat, handle: nat)
    requires size <= 3 * MiB
    ensures CheckUpload("aadhaarUrl", FileRef(base + ".PDF", size, handle)) == None
    ensures CheckUpload("photoUrl", FileRef(base + ".pdf", size, handle)).Some?
  {
    LastSegmentOfDotted(base, "PDF");
    LastSegmentOfDotted(base, "pdf");
    assert base + "." + "PDF" == base + ".PDF";
    assert base + "." + "pdf" == base + ".pdf";
    assert Lower("PDF") == "pdf";
    assert Lower("pdf") == "pdf";
  }

  /** The size limit is inclusive: exactly the limit is accepted, one byte more is not. */
  lemma SizeLimitInclusive(key: string, name: string, handle: nat)
    requires key in {"aadhaarUrl", "panUrl", "photoUrl"}
    requires Extension(name) in UploadLimits(key).0
    ensures CheckUpload(key, FileRef(name, UploadLimits(key).1 * MiB, handle)) == None
    ensures CheckUpload(key, FileRef(name, UploadLimits(key).1 * MiB + 1, handle)).Some?
  {
  }

  /** The two writes `handleFileUpload` makes: the preview URL under `key`, the file under `key + "_file"`. */
  function UploadWrites(form: Form, key: string, file: FileRef, url: string): (f: Form)
    ensures Get(f, key) == Str(url) && Get(f, key + "_file") == FileVal(file)
    ensures forall k :: k != key && k != key + "_file" ==> Get(f, k) == Get(form, k)
  {
    assert key != key + "_file" by { assert |key| != |key + "_file"|; }
    form[key := Str(url)][key + "_file" := FileVal(file)]
  }

  /** Writing the same key pair twice leaves only the second URL. */
  lemma UploadWritesTwice(form: Form, key: string, file: FileRef, first: string, second: string)
    ensures UploadWrites(UploadWrites(form, key, file, first), key, file, second) == UploadWrites(form, key, file, second)
  {
  }

  /**
   * `handleFileUpload(e, key)`: `file` is `e.target.files?.[0]`; `preview`
   * and `previewAgain` are the two `URL.createObjectURL(file)` results.
   * The draft is written before the file is checked, so a rejected file
   * stays in the draft with its preview; an accepted one is written again
   * with the second URL. The result is the alert raised, if any.
   */
  method HandleFileUpload(d: DraftForm, key: string, file: Option<FileRef>, preview: string, previewAgain: string)
    returns (alert: Option<string>)
    modifies d
    ensures file.None? ==> alert == None && d.fields == old(d.fields)
    ensures file.Some? ==> alert == CheckUpload(key, file.value)
    ensures file.Some? && alert.Some? ==> d.fields == UploadWrites(old(d.fields), key, file.value, preview)
    ensures file.Some? && alert.None? ==> d.fields == UploadWrites(old(d.fields), key, file.value, previewAgain)
  {
    if file.None? {
      return None;
    }
    var f := file.value;
    d.Update(key, Str(preview));
    d.Update(key + "_file", FileVal(f));
    ghost var written := d.fields;
    assert written == UploadWrites(old(d.fields), key, f, preview);
    var limits := UploadLimits(key);
    alert := ValidateFile(f, limits.0, limits.1);
    if alert.Some? {
      return;
    }
    d.Update(key, Str(previewAgain));
    d.Update(key + "_file", FileVal(f));
    assert d.fields == UploadWrites(written, key, f, previewAgain);
    UploadWritesTwice(old(d.fields), key, f, preview, previewAgain);
  }

  // ---------------------------------------------------------------------------
  // validate()
  // ---------------------------------------------------------------------------

  /** The checks of `validate()`, in the order they run; the regular expressions see `String(value)`. */
  function KycGates(form: Form): seq<Gate> {
    [ Need(IsAadhaar(Show(Get(form, "aadhaarNumber"))), "Invalid Aadhaar. Must be exactly 12 digits."),
      Need(IsPan(Show(Get(form, "panNumber"))), "Invalid PAN Format. Should be ABCDE1234F") ]
    + [ Need(Truthy(Get(form, "aadhaarUrl")), "Please upload Aadhaar card."),
        Need(Truthy(Get(form, "panUrl")), "Please upload PAN card."),
        Need(Truthy(Get(form, "photoUrl")), "Please upload Passport photo.") ]
  }

  /** `validate()`: Pass means `next()` is called. */
  function ValidateKyc(form: Form): Check {
    FirstFailure(KycGates(form))
  }

  predicate KycAccepted(form: Form) {
    && IsAadhaar(Show(Get(form, "aadhaarNumber")))
    && IsPan(Show(Get(form, "panNumber")))
    && Truthy(Get(form, "aadhaarUrl")) && Truthy(Get(form, "panUrl")) && Truthy(Get(form, "photoUrl"))
  }

  /** `validate()` calls `next()` exactly when both numbers match and all three uploads are present. */
  lemma ValidateKycPassIff(form: Form)
    ensures ValidateKyc(form) == Pass <==> KycAccepted(form)
  {
    var g := KycGates(form);
    AllOkAppend(g[..2], g[2..]);
    assert g == g[..2] + g[2..];
    AllOkTwo(g[0], g[1]);
    assert g[2..] == [g[2], g[3], g[4]];
    AllOkThree(g[2], g[3], g[4]);
  }

  /**
   * A rejected file still leaves its preview under its key, so the upload
   * check of `validate()` for that key passes even though the alert said
   * the file was refused.
   */
  lemma RejectedUploadStillCounts(form: Form, file: FileRef, preview: string)
    requires preview != []
    requires CheckUpload("aadhaarUrl", file).Some?
    ensures KycGates(UploadWrites(form, "aadhaarUrl", file, preview))[2] == Ok
  {
  }

  /** `onChange` of the Aadhaar input. */
  method OnAadhaarChange(d: DraftForm, raw: string)
    modifies d
    ensures d.fields == old(d.fields)["aadhaarNumber" := Str(AadhaarInput(raw))]
  {
    d.Update("aadhaarNumber", Str(AadhaarInput(raw)));
  }

  /** `onChange` of the PAN input. */
  method OnPanChange(d: DraftForm, raw: string)
    modifies d
    ensures d.fields == old(d.fields)["panNumber" := Str(PanInput(raw))]
  {
    d.Update("panNumber", Str(PanInput(raw)));
  }
}
