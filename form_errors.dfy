/** The error stores the client's forms keep (`loginErrors`, `registerErrors`, `tripErrors`):
    one message per field, cleared at the start of a submit, then written issue by issue with
    `issues.map(i => setErrors(i.path[0].key, i.message))`. */
module FormErrors {

  /** A valibot issue, reduced to the key of its path's first step and its message. */
  datatype Issue = Issue(key: string, message: string)

  /** The store after writing each issue's message under its key, in order: it holds the keys it
      held and the key of every issue. */
  function Written(entries: map<string, string>, issues: seq<Issue>): (r: map<string, string>)
    ensures r.Keys == entries.Keys + set i | 0 <= i < |issues| :: issues[i].key
    decreases |issues|
  {
    if issues == [] then entries
    else
      var last := issues[|issues| - 1];
      var prefix := issues[..|issues| - 1];
      assert (set i | 0 <= i < |issues| :: issues[i].key)
             == (set i | 0 <= i < |prefix| :: prefix[i].key) + {last.key} by {
        forall i | 0 <= i < |prefix| ensures prefix[i] == issues[i] { }
      }
      Written(entries, prefix)[last.key := last.message]
  }

  /** Every key in `keys` mapped to the empty message. */
  function Blank(keys: set<string>): (m: map<string, string>)
    ensures m.Keys == keys && forall k :: k in m ==> m[k] == ""
  {
    map k | k in keys :: ""
  }

  /** A field no issue names keeps what it held. */
  lemma {:induction false} UnnamedFieldKept(entries: map<string, string>, issues: seq<Issue>, key: string)
    requires forall i :: 0 <= i < |issues| ==> issues[i].key != key
    ensures key in Written(entries, issues) <==> key in entries
    ensures key in entries ==> Written(entries, issues)[key] == entries[key]
  {
    if issues != [] {
      UnnamedFieldKept(entries, issues[..|issues| - 1], key);
    }
  }

  /** A field named by an issue holds the message of the last issue naming it. */
  lemma {:induction false} LastIssueWins(entries: map<string, string>, issues: seq<Issue>, i: int)
    requires 0 <= i < |issues|
    requires forall j :: i < j < |issues| ==> issues[j].key != issues[i].key
    ensures issues[i].key in Written(entries, issues)
    ensures Written(entries, issues)[issues[i].key] == issues[i].message
  {
    if i < |issues| - 1 {
      var prefix := issues[..|issues| - 1];
      assert prefix[i] == issues[i];
      assert forall j :: i < j < |prefix| ==> prefix[j] == issues[j];
      LastIssueWins(entries, prefix, i);
    }
  }

  /** A form's error store. */
  class ErrorStore {
    var entries: map<string, string>

    constructor(keys: set<string>)
      ensures entries == Blank(keys)
    {
      entries := Blank(keys);
    }

    /** `setErrors({ k: '', ... })`: a store setter merges the object into the store. */
    method Clear(keys: set<string>)
      modifies this
      ensures entries == old(entries) + Blank(keys)
    {
      entries := entries + Blank(keys);
    }

    /** `issues.map(i => setErrors(i.path[0].key, i.message))`. */
    method WriteIssues(issues: seq<Issue>)
      modifies this
      ensures entries == Written(old(entries), issues)
    {
      var i := 0;
      while i < |issues|
        invariant 0 <= i <= |issues|
        invariant entries == Written(old(entries), issues[..i])
      {
        assert issues[..i + 1][..i] == issues[..i];
        entries := entries[issues[i].key := issues[i].message];
        i := i + 1;
      }
      assert issues[..|issues|] == issues;
    }
  }
}
