/**
 * getInfo and getDeviceInfo in clwrap.h: reading a string property of a
 * device into a fixed buffer, and formatting the one-line description
 * "name; version" with " (ECC)" appended for error-correcting devices.
 *
 * Buffers are modelled by their contents (a sequence of chars as long as the
 * buffer), and a C string is what lies before the first NUL. The runtime
 * answers clGetDeviceInfo as section 4.2 of the OpenCL 1.2 specification
 * says: the size it reports for a string includes the terminating NUL, and a
 * buffer too small for the value gets CL_INVALID_VALUE and is left alone.
 */
module DeviceInfo {
  import opened Outcomes
  import opened OpenCl

  const NUL: char := 0 as char

  /** `char name[128]` and `char version[128]` in getDeviceInfo. */
  const INFO_BUFFER: nat := 128

  const SEPARATOR: string := "; "
  const ECC_SUFFIX: string := " (ECC)"

  /** A string property of a device as the runtime holds it, with the status
      a query for it returns (CL_SUCCESS for a valid device). */
  datatype StringProperty = StringProperty(status: int, text: string)

  /** CL_DEVICE_ERROR_CORRECTION_SUPPORT: the status of the query and the cl_bool. */
  datatype FlagProperty = FlagProperty(status: int, flag: nat)

  /** What clGetDeviceInfo returns for a string property: status, the size
      reported through param_value_size_ret, and the buffer afterwards. */
  datatype StringAnswer = StringAnswer(status: int, size: nat, buf: seq<char>)

  /** The C string held by buf: everything before the first NUL. */
  function CString(buf: seq<char>): (s: string)
    ensures NUL !in s
    ensures s == buf || s + [NUL] <= buf
  {
    if buf == [] || buf[0] == NUL then [] else [buf[0]] + CString(buf[1..])
  }

  /** Blank(n): a buffer of n NULs. */
  function Blank(n: nat): (b: seq<char>)
    ensures |b| == n && forall i :: 0 <= i < n ==> b[i] == NUL
  {
    seq(n, i => NUL)
  }

  /** clGetDeviceInfo for a string property into a buffer of |buf| chars. */
  function QueryString(p: StringProperty, buf: seq<char>): (a: StringAnswer)
    ensures |a.buf| == |buf|
    ensures a.status == CL_SUCCESS <==> p.status == CL_SUCCESS && |p.text| + 1 <= |buf|
    ensures a.status == CL_SUCCESS ==> a.size == |p.text| + 1 && a.buf[..a.size] == p.text + [NUL]
    ensures a.status != CL_SUCCESS ==> a.buf == buf
  {
    if p.status != CL_SUCCESS then StringAnswer(p.status, 0, buf)
    else if |buf| < |p.text| + 1 then StringAnswer(CL_INVALID_VALUE, |p.text| + 1, buf)
    else StringAnswer(CL_SUCCESS, |p.text| + 1, p.text + [NUL] + buf[|p.text| + 1..])
  }

  /** getInfo: the query under CHECK, then `assert(outSize < bufSize)` and
      `buf[outSize] = 0`. The result is the buffer afterwards. */
  function GetInfo(p: StringProperty, buf: seq<char>): (r: Result<seq<char>>)
    ensures p.status != CL_SUCCESS ==> r == Failure(CheckFailed(p.status))
    ensures p.status == CL_SUCCESS && |p.text| + 1 > |buf| ==> r == Failure(CheckFailed(CL_INVALID_VALUE))
    ensures p.status == CL_SUCCESS && |p.text| + 1 == |buf| ==> r == Failure(AssertFailed)
    ensures r.Success? <==> p.status == CL_SUCCESS && |p.text| + 1 < |buf|
    ensures r.Success? ==> |r.value| == |buf| && CString(r.value) == CString(p.text)
  {
    var a := QueryString(p, buf);
    if a.status != CL_SUCCESS then Failure(CheckFailed(a.status))
    else if !(a.size < |buf|) then Failure(AssertFailed)
    else
      var after := a.buf[a.size := NUL];
      CStringOfTerminated(p.text, after);
      Success(after)
  }

  /** A buffer starting with text and a NUL holds text's C string. */
  lemma {:induction false} CStringOfTerminated(text: string, buf: seq<char>)
    requires text + [NUL] <= buf
    ensures CString(buf) == CString(text)
  {
    if text != [] && text[0] != NUL {
      assert text[1..] + [NUL] <= buf[1..];
      CStringOfTerminated(text[1..], buf[1..]);
    }
  }

  /** The format "%s; %s%s" of getDeviceInfo. */
  function Describe(name: string, version: string, ecc: bool): (d: string)
    ensures |d| == |name| + 2 + |version| + (if ecc then |ECC_SUFFIX| else 0)
    ensures d[..|name|] == name && d[|name|..|name| + 2] == SEPARATOR
  {
    name + SEPARATOR + version + (if ecc then ECC_SUFFIX else "")
  }

  /** snprintf(info, |info|, "%s", text): with room for n chars, the first
      n - 1 of text and a NUL; with no room at all, nothing is written. */
  function Snprintf(info: seq<char>, text: string): (after: seq<char>)
    ensures |after| == |info|
    ensures |info| == 0 ==> after == info
    ensures |info| > 0 && NUL !in text ==> CString(after) == text[..Min(|text|, |info| - 1)]
  {
    if |info| == 0 then info
    else
      var m := Min(|text|, |info| - 1);
      var after := text[..m] + [NUL] + info[m + 1..];
      CStringOfTerminated(text[..m], after);
      CStringOfPlain(text[..m]);
      after
  }

  /** A NUL-free string is its own C string. */
  lemma {:induction false} CStringOfPlain(s: string)
    ensures NUL !in s ==> CString(s) == s
  {
    if s != [] && NUL !in s {
      CStringOfPlain(s[1..]);
    }
  }

  /** getDeviceInfo: name, then version, then the ECC flag are queried, each
      under CHECK, and the description is written into info. */
  function GetDeviceInfo(name: StringProperty, version: StringProperty, ecc: FlagProperty,
                         info: seq<char>): (r: Result<seq<char>>)
    ensures r.Success? <==>
              && name.status == CL_SUCCESS && |name.text| + 1 < INFO_BUFFER
              && version.status == CL_SUCCESS && |version.text| + 1 < INFO_BUFFER
              && ecc.status == CL_SUCCESS
    ensures r.Success? ==>
              r.value == Snprintf(info, Describe(CString(name.text), CString(version.text), ecc.flag != 0))
    ensures name.status != CL_SUCCESS ==> r == Failure(CheckFailed(name.status))
    ensures name.status == CL_SUCCESS && |name.text| + 1 > INFO_BUFFER ==>
              r == Failure(CheckFailed(CL_INVALID_VALUE))
    ensures name.status == CL_SUCCESS && |name.text| + 1 == INFO_BUFFER ==> r == Failure(AssertFailed)
    ensures name.status == CL_SUCCESS && |name.text| + 1 < INFO_BUFFER && version.status != CL_SUCCESS ==>
              r == Failure(CheckFailed(version.status))
    ensures name.status == CL_SUCCESS && |name.text| + 1 < INFO_BUFFER && version.status == CL_SUCCESS ==>
              && (|version.text| + 1 > INFO_BUFFER ==> r == Failure(CheckFailed(CL_INVALID_VALUE)))
              && (|version.text| + 1 == INFO_BUFFER ==> r == Failure(AssertFailed))
              && (|version.text| + 1 < INFO_BUFFER && ecc.status != CL_SUCCESS ==>
                    r == Failure(CheckFailed(ecc.status)))
  {
    var nameBuf :- GetInfo(name, Blank(INFO_BUFFER));
    var versionBuf :- GetInfo(version, Blank(INFO_BUFFER));
    var _ :- Check(ecc.status);
    Success(Snprintf(info, Describe(CString(nameBuf), CString(versionBuf), ecc.flag != 0)))
  }

  // ---------------------------------------------------------------------
  // Reading a description back

  /** The first index of c in s, if any. */
  function IndexOf(s: string, c: char): (k: Option<nat>)
    ensures k.None? <==> c !in s
    ensures k.Some? ==> k.value < |s| && s[k.value] == c && c !in s[..k.value]
  {
    if s == [] then None
    else if s[0] == c then Some(0)
    else match IndexOf(s[1..], c)
      case None => None
      case Some(k) => assert s[..k + 1] == [s[0]] + s[1..][..k]; Some(k + 1)
  }

  /** Splits a description into name, version and ECC flag. */
  function ParseDescription(d: string): (p: Option<(string, string, bool)>)
  {
    match IndexOf(d, ';')
    case None => None
    case Some(k) =>
      if k + 2 <= |d| && d[k..k + 2] == SEPARATOR then
        var rest := d[k + 2..];
        if EndsWithEcc(rest) then
          Some((d[..k], rest[..|rest| - |ECC_SUFFIX|], true))
        else Some((d[..k], rest, false))
      else None
  }

  predicate EndsWithEcc(s: string) {
    |s| >= |ECC_SUFFIX| && s[|s| - |ECC_SUFFIX|..] == ECC_SUFFIX
  }

  /** A version string that does not itself end like an ECC description. */
  predicate PlainVersion(version: string) {
    !EndsWithEcc(version)
  }

  /** The format on a small device: name "X", version "Y". */
  lemma DescribeExample()
    ensures Describe("X", "Y", true) == "X; Y (ECC)"
    ensures Describe("X", "Y", false) == "X; Y"
  {
  }

  /** The description determines name, version and ECC flag, as long as the
      name has no ';' and the version does not itself end in " (ECC)". */
  lemma ParseDescribe(name: string, version: string, ecc: bool)
    requires ';' !in name && PlainVersion(version)
    ensures ParseDescription(Describe(name, version, ecc)) == Some((name, version, ecc))
  {
    var d := Describe(name, version, ecc);
    assert d[..|name|] == name;
    assert d[|name|] == ';';
    assert IndexOf(d, ';') == Some(|name|) by {
      IndexOfPrefix(d, name, ';');
    }
    assert d[|name|..|name| + 2] == SEPARATOR;
    var rest := d[|name| + 2..];
    if ecc {
      assert rest == version + ECC_SUFFIX;
      assert rest[|rest| - |ECC_SUFFIX|..] == ECC_SUFFIX;
      assert rest[..|rest| - |ECC_SUFFIX|] == version;
    } else {
      assert rest == version;
    }
  }

  /** If s starts with a c-free prefix followed by c, c first occurs there. */
  lemma {:induction false} IndexOfPrefix(s: string, prefix: string, c: char)
    requires c !in prefix && |prefix| < |s| && s[..|prefix|] == prefix && s[|prefix|] == c
    ensures IndexOf(s, c) == Some(|prefix|)
  {
    if prefix != [] {
      assert s[1..][..|prefix| - 1] == prefix[1..];
      IndexOfPrefix(s[1..], prefix[1..], c);
    }
  }

  /** What follows the separator ends in " (ECC)" exactly when the flag is
      set, the version not ending in it already. */
  lemma EccSuffix(name: string, version: string, ecc: bool)
    requires PlainVersion(version)
    ensures ecc <==> EndsWithEcc(Describe(name, version, ecc)[|name| + |SEPARATOR|..])
  {
    var rest := Describe(name, version, ecc)[|name| + |SEPARATOR|..];
    if ecc {
      assert rest == version + ECC_SUFFIX;
      assert rest[|rest| - |ECC_SUFFIX|..] == ECC_SUFFIX;
    } else {
      assert rest == version;
    }
  }

  /** A successful getDeviceInfo leaves the description in info, cut to the
      room the buffer has for characters before its NUL. */
  lemma DescriptionWritten(name: StringProperty, version: StringProperty, ecc: FlagProperty, info: seq<char>)
    requires name.status == CL_SUCCESS && version.status == CL_SUCCESS && ecc.status == CL_SUCCESS
    requires |name.text| + 1 < INFO_BUFFER && |version.text| + 1 < INFO_BUFFER
    requires NUL !in name.text && NUL !in version.text && |info| > 0
    ensures GetDeviceInfo(name, version, ecc, info).Success?
    ensures var d := Describe(name.text, version.text, ecc.flag != 0);
            && CString(GetDeviceInfo(name, version, ecc, info).value) == d[..Min(|d|, |info| - 1)]
            && (|d| < |info| ==> CString(GetDeviceInfo(name, version, ecc, info).value) == d)
  {
    CStringOfPlain(name.text);
    CStringOfPlain(version.text);
    var d := Describe(name.text, version.text, ecc.flag != 0);
    assert NUL !in d;
    assert d[..|d|] == d;
  }
}
