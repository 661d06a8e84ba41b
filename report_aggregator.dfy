/**
 * The report aggregator: statement files are routed to one of three bank
 * buckets by the text before the first '_' of their name, and each bucket's
 * transactions are its files' parses, concatenated in arrival order.
 *
 * The directory listing is given as a sequence of (file name, full path)
 * pairs of regular files. Reading a file's lines is a function parameter,
 * and so are the ING and Revolut parsers.
 */
module ReportAggregation {
  import opened Wrappers
  import opened Transactions
  import opened ReportParsers

  const AbnKey := "ABN"
  const IngKey := "ING"
  const RevolutKey := "Revolut"

  /** The buckets every aggregator starts with, all empty. */
  function InitialBuckets(): (b: map<string, seq<string>>)
    ensures b.Keys == {AbnKey, IngKey, RevolutKey}
    ensures forall k :: k in b ==> b[k] == []
  {
    map[AbnKey := [], IngKey := [], RevolutKey := []]
  }

  /** `filename.split('_')[0]`: the text before the first '_' (all of it when there is none). */
  function BankPrefix(filename: string): (p: string)
    ensures |p| <= |filename| && p == filename[..|p|]
    ensures '_' !in p
    ensures |p| < |filename| ==> filename[|p|] == '_'
  {
    if filename == [] || filename[0] == '_' then [] else [filename[0]] + BankPrefix(filename[1..])
  }

  /** The bucket a file name selects, if any: by exact, case-sensitive prefix. */
  function BucketOf(filename: string): Option<string>
  {
    if '_' !in filename then None
    else
      var bank := BankPrefix(filename);
      if bank == "ABNAMRO" then Some(AbnKey)
      else if bank == "ING" then Some(IngKey)
      else if bank == "Revolut" then Some(RevolutKey)
      else None
  }

  /** The buckets after `_process_file(filename, path)`. */
  function Routed(b: map<string, seq<string>>, filename: string, path: string): map<string, seq<string>>
    requires b.Keys == {AbnKey, IngKey, RevolutKey}
  {
    match BucketOf(filename)
    case None => b
    case Some(key) => b[key := b[key] + [path]]
  }

  /** The buckets after processing every listed file in order. */
  function RoutedAll(b: map<string, seq<string>>, entries: seq<(string, string)>): (r: map<string, seq<string>>)
    requires b.Keys == {AbnKey, IngKey, RevolutKey}
    ensures r.Keys == b.Keys
  {
    if entries == [] then b
    else RoutedAll(Routed(b, entries[0].0, entries[0].1), entries[1..])
  }

  /** The paths, in listing order, of the files a bucket receives. */
  function PathsFor(entries: seq<(string, string)>, key: string): (ps: seq<string>)
    ensures |ps| <= |entries|
  {
    if entries == [] then []
    else (if BucketOf(entries[0].0) == Some(key) then [entries[0].1] else []) + PathsFor(entries[1..], key)
  }

  /** Which buckets a file name selects: only the three prefixes, matched exactly. */
  lemma BucketOfMeaning(filename: string)
    ensures BucketOf(filename) == Some(AbnKey) <==> '_' in filename && BankPrefix(filename) == "ABNAMRO"
    ensures BucketOf(filename) == Some(IngKey) <==> '_' in filename && BankPrefix(filename) == "ING"
    ensures BucketOf(filename) == Some(RevolutKey) <==> '_' in filename && BankPrefix(filename) == "Revolut"
    ensures BucketOf(filename).Some? ==> BucketOf(filename).value in {AbnKey, IngKey, RevolutKey}
  {
  }

  /** A bank prefix followed by '_' selects that bank's bucket. */
  lemma BucketOfPrefixed(bank: string, rest: string)
    requires '_' !in bank
    ensures BankPrefix(bank + "_" + rest) == bank
    ensures BucketOf(bank + "_" + rest) ==
      (if bank == "ABNAMRO" then Some(AbnKey) else if bank == "ING" then Some(IngKey)
       else if bank == "Revolut" then Some(RevolutKey) else None)
  {
    var name := bank + "_" + rest;
    assert name[|bank|] == '_';
    assert name[..|bank|] == bank;
  }

  /** The prefix is matched case-sensitively: "abnamro" is not "ABNAMRO". */
  lemma BucketOfLowerCase()
    ensures BucketOf("abnamro_2025.txt") == None
  {
    BucketOfPrefixed("abnamro", "2025.txt");
    assert "abnamro" + "_" + "2025.txt" == "abnamro_2025.txt";
  }

  /** A name starting with '_' has the empty prefix, which selects no bucket. */
  lemma BucketOfEmptyPrefix(rest: string)
    ensures BucketOf("_" + rest) == None
  {
    BucketOfPrefixed("", rest);
    assert "" + "_" + rest == "_" + rest;
  }

  /** A name without '_' is ignored, even if it starts with a bank name. */
  lemma BucketOfNoSeparator()
    ensures BucketOf("ABNAMRO.txt") == None
  {
    assert forall i :: 0 <= i < |"ABNAMRO.txt"| ==> "ABNAMRO.txt"[i] != '_';
  }

  /**
   * Processing one file appends its path to exactly the bucket its name
   * selects and leaves every other bucket as it was; an ignored file changes
   * nothing.
   */
  lemma RoutedMeaning(b: map<string, seq<string>>, filename: string, path: string)
    requires b.Keys == {AbnKey, IngKey, RevolutKey}
    ensures Routed(b, filename, path).Keys == b.Keys
    ensures forall k :: k in b ==>
      Routed(b, filename, path)[k] == b[k] + (if BucketOf(filename) == Some(k) then [path] else [])
  {
  }

  /**
   * After processing a listing, each bucket holds what it held before
   * followed by the paths of the files that select it, in listing order.
   */
  lemma {:induction false} RoutedAllMeaning(b: map<string, seq<string>>, entries: seq<(string, string)>, key: string)
    requires b.Keys == {AbnKey, IngKey, RevolutKey} && key in b
    ensures RoutedAll(b, entries)[key] == b[key] + PathsFor(entries, key)
  {
    if entries != [] {
      var b' := Routed(b, entries[0].0, entries[0].1);
      var head := if BucketOf(entries[0].0) == Some(key) then [entries[0].1] else [];
      RoutedMeaning(b, entries[0].0, entries[0].1);
      RoutedAllMeaning(b', entries[1..], key);
      assert b'[key] == b[key] + head;
      assert PathsFor(entries, key) == head + PathsFor(entries[1..], key);
      assert (b[key] + head) + PathsFor(entries[1..], key) == b[key] + (head + PathsFor(entries[1..], key));
    }
  }

  /** Every accepted file lands in exactly one bucket; ignored files in none. */
  lemma {:induction false} PathsForCount(entries: seq<(string, string)>)
    ensures |PathsFor(entries, AbnKey)| + |PathsFor(entries, IngKey)| + |PathsFor(entries, RevolutKey)|
      == |Accepted(entries)|
  {
    if entries != [] {
      PathsForCount(entries[1..]);
    }
  }

  /** The listed files whose name selects some bucket. */
  function Accepted(entries: seq<(string, string)>): seq<(string, string)>
  {
    if entries == [] then []
    else (if BucketOf(entries[0].0).Some? then [entries[0]] else []) + Accepted(entries[1..])
  }

  /** Two parse outcomes one after the other: the first failure, or both lists of transactions joined. */
  function Then<E>(a: Result<seq<Transaction>, E>, b: Result<seq<Transaction>, E>): (r: Result<seq<Transaction>, E>)
    ensures r.Success? <==> a.Success? && b.Success?
    ensures r.Success? ==> r.value == a.value + b.value
    ensures a.Failure? ==> r == a
    ensures a.Success? && b.Failure? ==> r == b
  {
    match a
    case Failure(e) => Failure(e)
    case Success(x) =>
      match b
      case Failure(e) => Failure(e)
      case Success(y) => Success(x + y)
  }

  /** Joining outcomes does not depend on how they are grouped. */
  lemma ThenAssociative<E>(a: Result<seq<Transaction>, E>, b: Result<seq<Transaction>, E>, c: Result<seq<Transaction>, E>)
    ensures Then(Then(a, b), c) == Then(a, Then(b, c))
  {
    if a.Success? && b.Success? && c.Success? {
      assert (a.value + b.value) + c.value == a.value + (b.value + c.value);
    }
  }

  /**
   * The transactions of a list of files: each file's parse, concatenated in
   * order. The first file whose parse fails fails the whole list, and no
   * later file is parsed.
   */
  function ParseFiles<E>(parse: string -> Result<seq<Transaction>, E>, files: seq<string>): Result<seq<Transaction>, E>
  {
    if files == [] then Success([]) else Then(parse(files[0]), ParseFiles(parse, files[1..]))
  }

  /** A single file's transactions are its parse. */
  lemma ParseFilesSingle<E>(parse: string -> Result<seq<Transaction>, E>, path: string)
    ensures ParseFiles(parse, [path]) == parse(path)
  {
    assert [path][1..] == [];
    if parse(path).Success? {
      assert parse(path).value + [] == parse(path).value;
    }
  }

  /** Parsing a concatenation of file lists parses the first list, then the second. */
  lemma {:induction false} ParseFilesAppend<E>(parse: string -> Result<seq<Transaction>, E>, a: seq<string>, b: seq<string>)
    ensures ParseFiles(parse, a + b) == Then(ParseFiles(parse, a), ParseFiles(parse, b))
  {
    if a != [] {
      assert (a + b)[0] == a[0];
      assert (a + b)[1..] == a[1..] + b;
      ParseFilesAppend(parse, a[1..], b);
      ThenAssociative(parse(a[0]), ParseFiles(parse, a[1..]), ParseFiles(parse, b));
    } else {
      assert a + b == b;
      var r := ParseFiles(parse, b);
      if r.Success? {
        assert [] + r.value == r.value;
      }
    }
  }

  /**
   * A list of files parses exactly when every file does; otherwise the error
   * is that of the first file that fails, every earlier file having parsed.
   */
  lemma {:induction false} ParseFilesMeaning<E>(parse: string -> Result<seq<Transaction>, E>, files: seq<string>)
    ensures ParseFiles(parse, files).Success? <==> forall i :: 0 <= i < |files| ==> parse(files[i]).Success?
    ensures ParseFiles(parse, files).Failure? ==>
      exists i :: 0 <= i < |files| && parse(files[i]) == Failure(ParseFiles(parse, files).error) &&
        forall j :: 0 <= j < i ==> parse(files[j]).Success?
  {
    if files != [] {
      ParseFilesMeaning(parse, files[1..]);
      var r := ParseFiles(parse, files);
      assert forall i :: 0 < i < |files| ==> files[1..][i - 1] == files[i];
      if (forall i :: 0 <= i < |files[1..]| ==> parse(files[1..][i]).Success?) {
        assert forall i :: 0 < i < |files| ==> parse(files[i]).Success?;
      }
      if parse(files[0]).Failure? {
        assert parse(files[0]) == Failure(r.error);
      } else if r.Failure? {
        var i :| 0 <= i < |files[1..]| && parse(files[1..][i]) == Failure(r.error) &&
          forall j :: 0 <= j < i ==> parse(files[1..][j]).Success?;
        assert parse(files[i + 1]) == Failure(r.error);
        assert forall j :: 0 <= j < i + 1 ==> parse(files[j]).Success? by {
          assert forall j :: 0 < j < i + 1 ==> files[j] == files[1..][j - 1];
        }
      }
    }
  }

  class ReportAggregator {
    var filesByBank: map<string, seq<string>>

    /** The three buckets are always present. */
    predicate Valid()
      reads this
    {
      filesByBank.Keys == {AbnKey, IngKey, RevolutKey}
    }

    /** `__init__`: three empty buckets, then every listed file routed in order. */
    constructor (entries: seq<(string, string)>)
      ensures Valid()
      ensures filesByBank == RoutedAll(InitialBuckets(), entries)
    {
      filesByBank := InitialBuckets();
      new;
      CollectFiles(entries);
    }

    /** `_collect_files` over a listing of regular files: each one processed in order. */
    method CollectFiles(entries: seq<(string, string)>)
      requires Valid()
      modifies this
      ensures Valid()
      ensures filesByBank == RoutedAll(old(filesByBank), entries)
    {
      var i := 0;
      while i < |entries|
        invariant 0 <= i <= |entries|
        invariant Valid()
        invariant RoutedAll(old(filesByBank), entries) == RoutedAll(filesByBank, entries[i..])
      {
        assert entries[i..][1..] == entries[i + 1..];
        ProcessFile(entries[i].0, entries[i].1);
        i := i + 1;
      }
    }

    /** `_process_file`: append the path to the bucket the name selects, if any. */
    method ProcessFile(filename: string, fullPath: string)
      requires Valid()
      modifies this
      ensures Valid()
      ensures filesByBank == Routed(old(filesByBank), filename, fullPath)
    {
      if '_' !in filename {
        return;
      }
      var bank := BankPrefix(filename);
      if bank == "ABNAMRO" {
        filesByBank := filesByBank[AbnKey := filesByBank[AbnKey] + [fullPath]];
      } else if bank == "ING" {
        filesByBank := filesByBank[IngKey := filesByBank[IngKey] + [fullPath]];
      } else if bank == "Revolut" {
        filesByBank := filesByBank[RevolutKey := filesByBank[RevolutKey] + [fullPath]];
      }
    }

    /**
     * `get_abn_transactions`: every ABN AMRO file's lines, read by `read`,
     * parsed in bucket order; the first bad file's error aborts the whole.
     */
    function GetAbnTransactions(read: string -> seq<string>): (r: Result<seq<Transaction>, ParseError>)
      requires Valid()
      reads this
      ensures r.Success? <==> forall i :: 0 <= i < |filesByBank[AbnKey]| ==> ParseAll(read(filesByBank[AbnKey][i])).Success?
      ensures r.Failure? ==>
        exists i :: 0 <= i < |filesByBank[AbnKey]| && ParseAll(read(filesByBank[AbnKey][i])) == Failure(r.error) &&
          forall j :: 0 <= j < i ==> ParseAll(read(filesByBank[AbnKey][j])).Success?
    {
      var parse := (p: string) => ParseAll(read(p));
      ParseFilesMeaning(parse, filesByBank[AbnKey]);
      ParseFiles(parse, filesByBank[AbnKey])
    }

    /** `get_ing_transactions`, with the ING parser as a parameter. */
    function GetIngTransactions<E>(parse: string -> Result<seq<Transaction>, E>): (r: Result<seq<Transaction>, E>)
      requires Valid()
      reads this
      ensures r.Success? <==> forall i :: 0 <= i < |filesByBank[IngKey]| ==> parse(filesByBank[IngKey][i]).Success?
      ensures r.Failure? ==>
        exists i :: 0 <= i < |filesByBank[IngKey]| && parse(filesByBank[IngKey][i]) == Failure(r.error) &&
          forall j :: 0 <= j < i ==> parse(filesByBank[IngKey][j]).Success?
    {
      ParseFilesMeaning(parse, filesByBank[IngKey]);
      ParseFiles(parse, filesByBank[IngKey])
    }

    /** `get_revolut_transactions`, with the Revolut parser as a parameter. */
    function GetRevolutTransactions<E>(parse: string -> Result<seq<Transaction>, E>): (r: Result<seq<Transaction>, E>)
      requires Valid()
      reads this
      ensures r.Success? <==> forall i :: 0 <= i < |filesByBank[RevolutKey]| ==> parse(filesByBank[RevolutKey][i]).Success?
      ensures r.Failure? ==>
        exists i :: 0 <= i < |filesByBank[RevolutKey]| && parse(filesByBank[RevolutKey][i]) == Failure(r.error) &&
          forall j :: 0 <= j < i ==> parse(filesByBank[RevolutKey][j]).Success?
    {
      ParseFilesMeaning(parse, filesByBank[RevolutKey]);
      ParseFiles(parse, filesByBank[RevolutKey])
    }
  }

  /**
   * Once a file is processed, the transactions of the bucket it selects are
   * the earlier files' outcome followed by that file's parse (the first
   * failure winning); every other bucket's transactions are unchanged.
   */
  lemma ParsedAfterRouting<E>(b: map<string, seq<string>>, filename: string, path: string,
                              parse: string -> Result<seq<Transaction>, E>, key: string)
    requires b.Keys == {AbnKey, IngKey, RevolutKey} && key in b
    ensures key in Routed(b, filename, path)
    ensures ParseFiles(parse, Routed(b, filename, path)[key]) ==
      if BucketOf(filename) == Some(key) then Then(ParseFiles(parse, b[key]), parse(path))
      else ParseFiles(parse, b[key])
  {
    RoutedMeaning(b, filename, path);
    if BucketOf(filename) == Some(key) {
      ParseFilesAppend(parse, b[key], [path]);
      ParseFilesSingle(parse, path);
    } else {
      assert b[key] + [] == b[key];
    }
  }

  /**
   * For an aggregator built from a listing, each bucket holds exactly the
   * paths of the files whose name selects it, in listing order; so a bank's
   * transactions are the parses of those files, concatenated.
   */
  lemma BucketsOfListing(entries: seq<(string, string)>)
    ensures RoutedAll(InitialBuckets(), entries)[AbnKey] == PathsFor(entries, AbnKey)
    ensures RoutedAll(InitialBuckets(), entries)[IngKey] == PathsFor(entries, IngKey)
    ensures RoutedAll(InitialBuckets(), entries)[RevolutKey] == PathsFor(entries, RevolutKey)
  {
    RoutedAllMeaning(InitialBuckets(), entries, AbnKey);
    RoutedAllMeaning(InitialBuckets(), entries, IngKey);
    RoutedAllMeaning(InitialBuckets(), entries, RevolutKey);
  }
}
