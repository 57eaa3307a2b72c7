/**
 * `cudaDrvCheck`: the CUDA driver API status check. A call that returned
 * `CUDA_SUCCESS` passes silently; any other status is looked up twice (its
 * symbolic name and its description), turned into a message that locates the
 * failed call, optionally logged, and thrown as a `std::runtime_error`.
 *
 * The driver's lookups `cuGetErrorName` and `cuGetErrorString` are
 * parameters: each maps a status to the status of the lookup itself and the
 * text it hands back.
 */
module CudaDrvCheck {
  import opened DecimalText

  /** `CUDA_SUCCESS` in the driver's `CUresult` enumeration. */
  const CudaSuccess: int := 0
  /** `CUDA_ERROR_INVALID_VALUE` in the driver's `CUresult` enumeration. */
  const CudaErrorInvalidValue: int := 1
  /** `ALPAKA_DEBUG_MINIMAL`, the least debug level at which failures are logged. */
  const DebugMinimal: int := 1

  /** What a driver lookup returns: its own status, and the text it points at. */
  datatype Lookup = Lookup(result: int, text: string)

  /** How the check ends: by returning, or by throwing `std::runtime_error(what)`. */
  datatype Outcome = Returned | Threw(what: string)

  /** Appended when `cuGetErrorName` itself reports an invalid value. */
  const NameLookupFailed: string := " cuGetErrorName: 'Invalid Value'!"
  /** Appended when `cuGetErrorString` itself reports an invalid value. */
  const StringLookupFailed: string := " cuGetErrorString: 'Invalid Value'!"

  /** The start of every message: where the failed call is and what it was. */
  function CallSite(file: string, line: int, desc: string): (r: string)
    ensures file + "(" <= r
    ensures EndsWith(r, desc + " : '")
  {
    file + "(" + IntToString(line) + ") " + desc + " : '"
  }

  /** What follows the call site: both texts, or the markers of the lookups that failed. */
  function LookupReport(name: Lookup, str: Lookup): (r: string)
    ensures name.result == CudaSuccess && str.result == CudaSuccess ==>
      name.text <= r && EndsWith(r, "': '" + str.text + "'!")
    ensures !(name.result == CudaSuccess && str.result == CudaSuccess) ==>
      |r| <= |NameLookupFailed| + |StringLookupFailed|
  {
    if name.result == CudaSuccess && str.result == CudaSuccess then
      name.text + "': '" + str.text + "'!"
    else
      (if name.result == CudaErrorInvalidValue then NameLookupFailed else "")
      + (if str.result == CudaErrorInvalidValue then StringLookupFailed else "")
  }

  /** The diagnostic for a failed call, given what the two lookups returned. */
  function ErrorMessage(file: string, line: int, desc: string, name: Lookup, str: Lookup): (msg: string)
    ensures CallSite(file, line, desc) <= msg
  {
    CallSite(file, line, desc) + LookupReport(name, str)
  }

  /**
   * `cudaDrvCheck(error, desc, file, line)`. `errorName` and `errorString`
   * stand for `cuGetErrorName` and `cuGetErrorString`; `debugLevel` is
   * `ALPAKA_DEBUG`. `logged` is what is written to `std::cerr`.
   */
  method DrvCheck(
    error: int, desc: string, file: string, line: int,
    errorName: int -> Lookup, errorString: int -> Lookup, debugLevel: int)
    returns (outcome: Outcome, logged: string)
    ensures outcome == Returned <==> error == CudaSuccess
    ensures outcome.Threw? ==>
      outcome.what == ErrorMessage(file, line, desc, errorName(error), errorString(error))
    ensures logged == if outcome.Threw? && debugLevel >= DebugMinimal then outcome.what + "\n" else ""
  {
    if error == CudaSuccess {
      return Returned, "";
    }
    var name := errorName(error);
    var str := errorString(error);
    var sError := file + "(" + IntToString(line) + ") " + desc + " : '";
    ghost var site := sError;
    if name.result == CudaSuccess && str.result == CudaSuccess {
      sError := sError + (name.text + "': '" + str.text + "'!");
    } else {
      if name.result == CudaErrorInvalidValue {
        sError := sError + NameLookupFailed;
      }
      ghost var nameMarker := if name.result == CudaErrorInvalidValue then NameLookupFailed else "";
      ghost var stringMarker := if str.result == CudaErrorInvalidValue then StringLookupFailed else "";
      assert sError == site + nameMarker;
      if str.result == CudaErrorInvalidValue {
        sError := sError + StringLookupFailed;
      }
      assert sError == site + nameMarker + stringMarker;
      AppendAssoc(site, nameMarker, stringMarker);
    }
    assert sError == site + LookupReport(name, str);
    logged := if debugLevel >= DebugMinimal then sError + "\n" else "";
    outcome := Threw(sError);
  }

  /** When both lookups succeed the message is exactly `file(line) desc : 'name': 'description'!`. */
  lemma MessageWhenLookupsSucceed(file: string, line: int, desc: string, name: Lookup, str: Lookup)
    requires name.result == CudaSuccess && str.result == CudaSuccess
    ensures ErrorMessage(file, line, desc, name, str)
      == file + "(" + IntToString(line) + ") " + desc + " : '" + name.text + "': '" + str.text + "'!"
  {
  }

  /**
   * When either lookup fails the message carries none of the lookups' text,
   * not even that of a lookup that succeeded: it is the same whatever they
   * pointed at.
   */
  lemma FailedLookupHidesText(
    file: string, line: int, desc: string, name: Lookup, str: Lookup, name': Lookup, str': Lookup)
    requires !(name.result == CudaSuccess && str.result == CudaSuccess)
    requires name'.result == name.result && str'.result == str.result
    ensures ErrorMessage(file, line, desc, name, str) == ErrorMessage(file, line, desc, name', str')
  {
  }

  /**
   * When either lookup fails, the name marker follows the call site exactly
   * when `cuGetErrorName` reported an invalid value, and the message ends with
   * the description marker exactly when `cuGetErrorString` did; any other
   * lookup status adds nothing.
   */
  lemma FailedLookupMarkers(file: string, line: int, desc: string, name: Lookup, str: Lookup)
    requires !(name.result == CudaSuccess && str.result == CudaSuccess)
    ensures var msg := ErrorMessage(file, line, desc, name, str);
      var tail := msg[|CallSite(file, line, desc)|..];
      && (NameLookupFailed <= tail <==> name.result == CudaErrorInvalidValue)
      && (EndsWith(tail, StringLookupFailed) <==> str.result == CudaErrorInvalidValue)
      && |tail| == (if name.result == CudaErrorInvalidValue then |NameLookupFailed| else 0)
                   + (if str.result == CudaErrorInvalidValue then |StringLookupFailed| else 0)
  {
    var msg := ErrorMessage(file, line, desc, name, str);
    var tail := msg[|CallSite(file, line, desc)|..];
    assert tail == LookupReport(name, str);
    if name.result != CudaErrorInvalidValue && str.result == CudaErrorInvalidValue {
      assert tail == StringLookupFailed;
      assert tail[11] != NameLookupFailed[11];
    }
    if name.result == CudaErrorInvalidValue && str.result != CudaErrorInvalidValue {
      assert tail == NameLookupFailed;
    }
  }

  lemma AppendAssoc(a: string, b: string, c: string)
    ensures a + b + c == a + (b + c)
  {
  }

  predicate EndsWith(s: string, suffix: string)
  {
    |suffix| <= |s| && s[|s| - |suffix|..] == suffix
  }

  /**
   * The line number can be read back from a message whose file and call text
   * are known: the digits between `file(` and `) ` render the line.
   */
  lemma MessageLocatesCall(file: string, line: int, desc: string, name: Lookup, str: Lookup)
    ensures var msg := ErrorMessage(file, line, desc, name, str);
      var digits := IntToString(line);
      && msg[..|file| + 1] == file + "("
      && msg[|file| + 1..|file| + 1 + |digits|] == digits
      && msg[|file| + 1 + |digits|..|file| + 3 + |digits|] == ") "
      && ParseInt(msg[|file| + 1..|file| + 1 + |digits|]) == line
  {
    IntToStringRoundTrip(line);
  }
}
