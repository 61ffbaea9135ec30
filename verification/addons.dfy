/** The merge inside `fetch_addons`: the Chrome records, then the Firefox records. */
module Addons {
  import opened Base
  import opened FileTree
  import opened Json
  import opened Records
  import ChromeScan
  import FirefoxScan

  /**
   * `get_chrome_extensions() + get_firefox_extensions()`. The Chrome extractor runs
   * first, so its exception wins and the Firefox extractor is never run.
   */
  function Fetch(decode: Decoder, home: Node): (r: Result<Scan, Fault>)
    ensures r.Success? <==> ChromeScan.Extensions(decode, home).Success? && FirefoxScan.Extensions(decode, home).Success?
    ensures ChromeScan.Extensions(decode, home).Failure? ==> r == Failure(ChromeScan.Extensions(decode, home).error)
    ensures ChromeScan.Extensions(decode, home).Success? && FirefoxScan.Extensions(decode, home).Failure? ==>
              r == Failure(FirefoxScan.Extensions(decode, home).error)
    ensures r.Success? ==> r.value.records == ChromeScan.Extensions(decode, home).value.records
                                             + FirefoxScan.Extensions(decode, home).value.records
  {
    match ChromeScan.Extensions(decode, home)
    case Failure(e) => Failure(e)
    case Success(chrome) =>
      match FirefoxScan.Extensions(decode, home)
      case Failure(e) => Failure(e)
      case Success(firefox) => Success(chrome.Then(firefox))
  }

  /**
   * In the merged list every Chrome record comes before every Firefox record, and
   * the Chrome records are exactly the leading ones.
   */
  lemma ChromeBeforeFirefox(decode: Decoder, home: Node)
    ensures Fetch(decode, home).Success? ==>
              var records := Fetch(decode, home).value.records;
              var n := |ChromeScan.Extensions(decode, home).value.records|;
              && n <= |records|
              && (forall i :: 0 <= i < |records| ==> (records[i].browser == Chrome <==> i < n))
  {
    if Fetch(decode, home).Failure? {
      return;
    }
    ChromeScan.AllTaggedChrome(decode, home);
    FirefoxScan.AllTaggedFirefox(decode, home);
    var chrome := ChromeScan.Extensions(decode, home).value.records;
    var firefox := FirefoxScan.Extensions(decode, home).value.records;
    var records := Fetch(decode, home).value.records;
    forall i | 0 <= i < |records|
      ensures records[i].browser == Chrome <==> i < |chrome|
    {
      if i < |chrome| {
        assert records[i] == chrome[i];
      } else {
        assert records[i] == firefox[i - |chrome|];
      }
    }
  }

  /** With no Chrome user-data directory the merged list is exactly the Firefox list. */
  lemma MissingChromeLeavesFirefox(decode: Decoder, home: Node)
    ensures Lookup(home, ChromeScan.BasePath).None? && FirefoxScan.Extensions(decode, home).Success? ==>
              Fetch(decode, home) == Success(Scan(FirefoxScan.Extensions(decode, home).value.records,
                                                  [ChromePathNotFound] + FirefoxScan.Extensions(decode, home).value.log))
  {
    if Lookup(home, ChromeScan.BasePath).None? && FirefoxScan.Extensions(decode, home).Success? {
      assert [] + FirefoxScan.Extensions(decode, home).value.records == FirefoxScan.Extensions(decode, home).value.records;
    }
  }
}
