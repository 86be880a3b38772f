/** The statement splitter of the database setup script: the schema file is
    cut at every `;`, each piece trimmed, empty pieces and the `CREATE
    DATABASE` and `USE` statements dropped, and each statement that remains is
    sent with its `;` put back. */
module SchemaSetup {
  import opened Seqs
  import opened Text

  /** A trimmed piece that is run: non-empty and neither a database creation
      nor a `USE`. */
  predicate Executable(stmt: string)
  {
    |stmt| > 0 && !StartsWith(stmt, "CREATE DATABASE") && !StartsWith(stmt, "USE")
  }

  /** The schema cut at every `;`, each piece trimmed. */
  function TrimmedChunks(schema: string): (r: seq<string>)
    ensures |r| == |Split(schema, ';')|
    ensures forall i :: 0 <= i < |r| ==> r[i] == Trim(Split(schema, ';')[i])
  {
    var chunks := Split(schema, ';');
    seq(|chunks|, i requires 0 <= i < |chunks| => Trim(chunks[i]))
  }

  /** A string free of `;` stays free of it when trimmed. */
  lemma TrimKeepsNoSeparator(s: string)
    requires ';' !in s
    ensures ';' !in Trim(s)
  {
    var r := Trim(s);
    var i :| TrimmedAt(s, r, i);
    forall k | 0 <= k < |r|
      ensures r[k] != ';'
    {
      assert r[k] == s[i + k];
    }
  }

  /** A trimmed, `;`-free piece: what every statement to run looks like. */
  predicate Clean(stmt: string)
  {
    ';' !in stmt && (stmt == [] || (!IsSpace(stmt[0]) && !IsSpace(stmt[|stmt| - 1])))
  }

  /** Every trimmed piece of the schema is clean. */
  lemma TrimmedChunksClean(schema: string)
    ensures forall i :: 0 <= i < |TrimmedChunks(schema)| ==> Clean(TrimmedChunks(schema)[i])
  {
    var chunks := Split(schema, ';');
    var trimmed := TrimmedChunks(schema);
    forall i | 0 <= i < |trimmed|
      ensures Clean(trimmed[i])
    {
      TrimKeepsNoSeparator(chunks[i]);
    }
  }

  /** The statements to run, in the order they appear in the schema: each
      non-empty, trimmed and free of `;`, none a database creation or a `USE`,
      and every piece that qualifies is among them. */
  function Statements(schema: string): (r: seq<string>)
    ensures forall i :: 0 <= i < |r| ==> Executable(r[i]) && Clean(r[i])
    ensures forall i :: 0 <= i < |Split(schema, ';')| && Executable(Trim(Split(schema, ';')[i])) ==>
              Trim(Split(schema, ';')[i]) in r
    ensures forall i :: 0 <= i < |TrimmedChunks(schema)| ==>
              multiset(r)[TrimmedChunks(schema)[i]] == if Executable(TrimmedChunks(schema)[i])
                                                       then multiset(TrimmedChunks(schema))[TrimmedChunks(schema)[i]]
                                                       else 0
    ensures IsSubsequence(r, TrimmedChunks(schema))
  {
    var trimmed := TrimmedChunks(schema);
    TrimmedChunksClean(schema);
    var r := Filter(trimmed, Executable);
    assert forall i :: 0 <= i < |r| ==> Clean(r[i]) by {
      forall i | 0 <= i < |r|
        ensures Clean(r[i])
      {
        var j :| 0 <= j < |trimmed| && trimmed[j] == r[i];
      }
    }
    r
  }

  /** The texts sent to the server: each statement with `;` put back, so each
      ends in its only `;`. */
  function Executed(schema: string): (r: seq<string>)
    ensures |r| == |Statements(schema)|
    ensures forall i :: 0 <= i < |r| ==> |r[i]| >= 2 && r[i][..|r[i]| - 1] == Statements(schema)[i]
    ensures forall i :: 0 <= i < |r| ==> r[i][|r[i]| - 1] == ';' && ';' !in r[i][..|r[i]| - 1]
  {
    var stmts := Statements(schema);
    seq(|stmts|, i requires 0 <= i < |stmts| => stmts[i] + ";")
  }
}
