/** The credential-file reader of `germ new` (cmd/new.go): an AWS
    credentials CSV downloaded from the console becomes the shell line
    that exports its access key and secret. The file is read and parsed
    as CSV outside the model; its records, or the reason reading or
    parsing failed, are an input. */
module Credentials {
  import opened Wrappers
  import opened GoStrings

  type Records = seq<seq<string>>

  const AccessHeader := "Access key ID"
  const SecretHeader := "Secret access key"
  const CredentialsPrefix := "credentials"
  const AccessKeysPrefix := "accessKeys"
  const CsvSuffix := "csv"

  const AccessVar := "AWS_ACCESS_KEY_ID="
  const SecretVar := "AWS_SECRET_ACCESS_KEY="

  const InvalidHeader := "Invalid header for AWS creds file"
  const CannotHandle := "Cannot handle this creds file"
  const IndexOutOfRange := "index out of range"

  /** exportAWS. */
  function ExportAWS(access: string, secret: string): string {
    "export" + " " + AccessVar + access + " " + SecretVar + secret
  }

  /** A shell splitting the line on white space sees `export` and the two
      assignments, when neither value holds white space. */
  lemma ExportAWSFields(access: string, secret: string)
    requires forall k :: 0 <= k < |access| ==> !IsSpace(access[k])
    requires forall k :: 0 <= k < |secret| ==> !IsSpace(secret[k])
    ensures Fields(ExportAWS(access, secret))
      == ["export", AccessVar + access, SecretVar + secret]
  {
    var w1, w2, w3 := "export", AccessVar + access, SecretVar + secret;
    AssignmentWord(AccessVar, access);
    AssignmentWord(SecretVar, secret);
    ExportAWSWords(access, secret);
    FieldsOfWordThenSpace(w1, ' ', w2 + [' '] + w3);
    FieldsOfWordThenSpace(w2, ' ', w3);
    FieldsOfWord(w3);
  }

  /** The line is the three words joined by single spaces. */
  lemma ExportAWSWords(access: string, secret: string)
    ensures ExportAWS(access, secret) == "export" + [' '] + ((AccessVar + access) + [' '] + (SecretVar + secret))
  {
    var w1, w2, w3 := "export", AccessVar + access, SecretVar + secret;
    assert w1 + " " + AccessVar + access == w1 + " " + w2;
    assert ExportAWS(access, secret) == w1 + " " + w2 + " " + w3;
  }

  /** A variable name with '=' followed by a value without white space is
      one word. */
  lemma AssignmentWord(name: string, v: string)
    requires name == AccessVar || name == SecretVar
    requires forall k :: 0 <= k < |v| ==> !IsSpace(v[k])
    ensures forall k :: 0 <= k < |name + v| ==> !IsSpace((name + v)[k])
  {
    assert forall k :: 0 <= k < |name| ==> !IsSpace(name[k]);
    assert forall k :: |name| <= k < |name + v| ==> (name + v)[k] == v[k - |name|];
  }

  /** records[row][col], or Go's index panic. */
  function Cell(records: Records, row: nat, col: nat): Result<string> {
    if row < |records| && col < |records[row]| then Ok(records[row][col]) else Failure(IndexOutOfRange)
  }

  /** The body of a branch of handleFile: check the two headers of row 0,
      in order, then export the two cells of row 1. */
  function ReadKeys(csv: Result<Records>, accessCol: nat, secretCol: nat): Result<string> {
    var records :- csv;
    var accessHeader :- Cell(records, 0, accessCol);
    if accessHeader != AccessHeader then Failure(InvalidHeader)
    else
      var secretHeader :- Cell(records, 0, secretCol);
      if secretHeader != SecretHeader then Failure(InvalidHeader)
      else
        var access :- Cell(records, 1, accessCol);
        var secret :- Cell(records, 1, secretCol);
        Ok(ExportAWS(access, secret))
  }

  /** handleFile: the file name picks the columns; csv is what slurpCsv
      reads from the file. */
  function HandleFile(file: string, csv: Result<Records>): Result<string> {
    var base := Base(file);
    if HasPrefix(base, CredentialsPrefix) && HasSuffix(file, CsvSuffix) then ReadKeys(csv, 2, 3)
    else if HasPrefix(base, AccessKeysPrefix) && HasSuffix(file, CsvSuffix) then ReadKeys(csv, 0, 1)
    else Failure(CannotHandle)
  }

  /** The records hold the two headers in row 0 at the given columns and
      a row 1 wide enough to read both. */
  predicate KeysAt(records: Records, accessCol: nat, secretCol: nat) {
    && |records| >= 2
    && accessCol < |records[0]| && secretCol < |records[0]|
    && records[0][accessCol] == AccessHeader && records[0][secretCol] == SecretHeader
    && accessCol < |records[1]| && secretCol < |records[1]|
  }

  /** A branch succeeds exactly when the file was read and its records
      hold the headers and a key row; it then exports row 1's cells. */
  lemma ReadKeysCases(csv: Result<Records>, accessCol: nat, secretCol: nat)
    ensures var r := ReadKeys(csv, accessCol, secretCol);
      && (r.Ok? <==> csv.Ok? && KeysAt(csv.value, accessCol, secretCol))
      && (r.Ok? ==> r.value == ExportAWS(csv.value[1][accessCol], csv.value[1][secretCol]))
      && (csv.Failure? ==> r == Failure(csv.reason))
      && (csv.Ok? && 0 < |csv.value| && accessCol < |csv.value[0]| && csv.value[0][accessCol] != AccessHeader ==>
            r == Failure(InvalidHeader))
  {
  }

  /** handleFile accepts exactly a `credentials*` or `accessKeys*` file
      ending in "csv" whose records hold the keys at columns 2 and 3, or
      0 and 1; every other file name is refused. */
  lemma HandleFileCases(file: string, csv: Result<Records>)
    ensures var r := HandleFile(file, csv);
      var base := Base(file);
      && (!HasSuffix(file, CsvSuffix) ==> r == Failure(CannotHandle))
      && (!HasPrefix(base, CredentialsPrefix) && !HasPrefix(base, AccessKeysPrefix) ==> r == Failure(CannotHandle))
      && (r.Ok? <==> (HasSuffix(file, CsvSuffix) && csv.Ok? &&
            if HasPrefix(base, CredentialsPrefix) then KeysAt(csv.value, 2, 3)
            else HasPrefix(base, AccessKeysPrefix) && KeysAt(csv.value, 0, 1)))
      && (r.Ok? && HasPrefix(base, CredentialsPrefix) ==> r.value == ExportAWS(csv.value[1][2], csv.value[1][3]))
      && (r.Ok? && !HasPrefix(base, CredentialsPrefix) ==> r.value == ExportAWS(csv.value[1][0], csv.value[1][1]))
  {
    ReadKeysCases(csv, 2, 3);
    ReadKeysCases(csv, 0, 1);
  }

  /** The console's credentials.csv layout: user name, password, key,
      secret, console link. */
  lemma CredentialsFile(file: string, user: string, password: string, access: string, secret: string, link: string)
    requires Base(file) == "credentials.csv" && HasSuffix(file, CsvSuffix)
    ensures HandleFile(file, Ok([["User name", "Password", AccessHeader, SecretHeader, "Console login link"],
                                 [user, password, access, secret, link]]))
      == Ok(ExportAWS(access, secret))
  {
    var records := [["User name", "Password", AccessHeader, SecretHeader, "Console login link"],
                    [user, password, access, secret, link]];
    assert HandleFile(file, Ok(records)) == ReadKeys(Ok(records), 2, 3) by {
      PrefixOfName("credentials.csv", CredentialsPrefix, ".csv");
    }
    assert KeysAt(records, 2, 3);
    ReadKeysCases(Ok(records), 2, 3);
  }

  /** The accessKeys.csv layout: key and secret only. */
  lemma AccessKeysFile(file: string, access: string, secret: string)
    requires Base(file) == "accessKeys.csv" && HasSuffix(file, CsvSuffix)
    ensures HandleFile(file, Ok([[AccessHeader, SecretHeader], [access, secret]])) == Ok(ExportAWS(access, secret))
  {
    var records := [[AccessHeader, SecretHeader], [access, secret]];
    assert HandleFile(file, Ok(records)) == ReadKeys(Ok(records), 0, 1) by {
      FirstCharNotPrefix("accessKeys.csv", CredentialsPrefix);
      PrefixOfName("accessKeys.csv", AccessKeysPrefix, ".csv");
    }
    assert KeysAt(records, 0, 1);
    ReadKeysCases(Ok(records), 0, 1);
  }

  /** A root-key file is refused whatever it holds: neither file name
      prefix matches. */
  lemma RootKeyFileRefused(file: string, csv: Result<Records>)
    requires Base(file) == "rootkey.csv"
    ensures HandleFile(file, csv) == Failure(CannotHandle)
  {
    FirstCharNotPrefix("rootkey.csv", CredentialsPrefix);
    FirstCharNotPrefix("rootkey.csv", AccessKeysPrefix);
  }

  lemma PrefixOfName(s: string, prefix: string, rest: string)
    requires s == prefix + rest
    ensures HasPrefix(s, prefix)
  {
    assert s[..|prefix|] == prefix;
  }

  lemma FirstCharNotPrefix(s: string, prefix: string)
    requires |s| > 0 && |prefix| > 0 && s[0] != prefix[0]
    ensures !HasPrefix(s, prefix)
  {
  }

  /** The base of dir + "/" + name is name when name has no slash. */
  lemma BaseOfName(dir: string, name: string)
    requires |name| > 0 && '/' !in name
    ensures Base(dir + "/" + name) == name
  {
    var path := dir + "/" + name;
    assert path[|path| - 1] == name[|name| - 1];
    assert TrimTrailingSlashes(path) == path;
    var last := AfterLastSlash(path);
    assert path[|path| - |name| - 1..] == "/" + name;
    AfterLastSlashOf(dir + "/", name);
  }

  /** The text after the last slash of a + name, when a ends in '/' and
      name has no slash, is name. */
  lemma {:induction false} AfterLastSlashOf(a: string, name: string)
    requires |a| > 0 && a[|a| - 1] == '/' && '/' !in name
    ensures AfterLastSlash(a + name) == name
    decreases |name|
  {
    if |name| == 0 {
      assert a + name == a;
    } else {
      var init := name[..|name| - 1];
      assert (a + name)[..|a + name| - 1] == a + init;
      AfterLastSlashOf(a, init);
      assert init + [name[|name| - 1]] == name;
    }
  }

  /** findPassword: a file argument is read as a credentials file; with
      none, the secret typed at the prompt is used (a failure to read it
      is Go's panic). */
  function FindPassword(file: string, csv: Result<Records>, typed: Result<string>): Result<string> {
    if file != "" then HandleFile(file, csv) else typed
  }

  /** With a file argument the prompt is never read: the secret comes
      from a credentials or accessKeys CSV holding the key columns, and
      any other file fails; with none, the typed secret is used. */
  lemma FindPasswordCases(file: string, csv: Result<Records>, typed: Result<string>)
    ensures file == "" ==> FindPassword(file, csv, typed) == typed
    ensures file != "" ==>
      && (FindPassword(file, csv, typed).Ok? <==> (HasSuffix(file, CsvSuffix) && csv.Ok? &&
            if HasPrefix(Base(file), CredentialsPrefix) then KeysAt(csv.value, 2, 3)
            else HasPrefix(Base(file), AccessKeysPrefix) && KeysAt(csv.value, 0, 1)))
      && (FindPassword(file, csv, typed).Ok? ==>
            FindPassword(file, csv, typed).value
              == if HasPrefix(Base(file), CredentialsPrefix) then ExportAWS(csv.value[1][2], csv.value[1][3])
                 else ExportAWS(csv.value[1][0], csv.value[1][1]))
  {
    HandleFileCases(file, csv);
  }
}
