/**
 * The persisted store, reduced to its two tables: `jira_issues` (one record
 * per issue a channel was made for) and `email_mappings` (Jira e-mail to
 * Discord id). Every call swallows its own errors: a failed read of the
 * created keys yields `[]`, a failed or empty id lookup yields None, and a
 * failed insert is only logged.
 */
module Db {
  import opened Wrappers

  /** A row of `jira_issues`. */
  datatype IssueRecord = IssueRecord(issueKey: string, channelId: string, summary: string)

  /** A row of `email_mappings`; a NULL `discord_id` is the empty string. */
  datatype EmailMapping = EmailMapping(email: string, discordId: string)

  /** The `issue_key` column, in row order. */
  function StoredKeys(rows: seq<IssueRecord>): seq<string>
  {
    seq(|rows|, i requires 0 <= i < |rows| => rows[i].issueKey)
  }

  /** The `discord_id` of the first mapping row for `email`, if any. */
  function Lookup(mappings: seq<EmailMapping>, email: string): Option<string>
  {
    if mappings == [] then None
    else if mappings[0].email == email then Some(mappings[0].discordId)
    else Lookup(mappings[1..], email)
  }

  /**
   * The lookup answers with the id of the FIRST row for the e-mail, and with
   * None exactly when no row has that e-mail.
   */
  lemma {:induction false} LookupFirstMatch(mappings: seq<EmailMapping>, email: string)
    ensures Lookup(mappings, email).None? <==> forall i :: 0 <= i < |mappings| ==> mappings[i].email != email
    ensures Lookup(mappings, email).Some? ==>
              exists i :: 0 <= i < |mappings| && mappings[i] == EmailMapping(email, Lookup(mappings, email).value)
                && forall j :: 0 <= j < i ==> mappings[j].email != email
  {
    if mappings != [] && mappings[0].email != email {
      var rest := mappings[1..];
      LookupFirstMatch(rest, email);
      assert forall i :: 1 <= i < |mappings| ==> rest[i - 1] == mappings[i];
      if Lookup(rest, email).Some? {
        var i :| 0 <= i < |rest| && rest[i] == EmailMapping(email, Lookup(rest, email).value)
                && forall j :: 0 <= j < i ==> rest[j].email != email;
        assert mappings[i + 1] == rest[i];
        assert forall j :: 1 <= j < i + 1 ==> mappings[j] == rest[j - 1];
      }
    }
  }

  lemma StoredKeysConcat(a: seq<IssueRecord>, b: seq<IssueRecord>)
    ensures StoredKeys(a + b) == StoredKeys(a) + StoredKeys(b)
  {
  }

  class Store {
    var issues: seq<IssueRecord>
    const mappings: seq<EmailMapping>

    constructor (issues: seq<IssueRecord>, mappings: seq<EmailMapping>)
      ensures this.issues == issues && this.mappings == mappings
    {
      this.issues := issues;
      this.mappings := mappings;
    }

    /**
     * `get_discord_id_by_email`. A query that raises returns None as well;
     * the caller cannot tell it from a missing row, so a failing lookup is a
     * mapping that `mappings` does not hold.
     */
    method GetDiscordIdByEmail(email: string) returns (r: Option<string>)
      ensures r == Lookup(mappings, email)
      ensures r.Some? ==> EmailMapping(email, r.value) in mappings
      ensures r.None? ==> forall m :: m in mappings ==> m.email != email
    {
      r := Lookup(mappings, email);
      LookupFirstMatch(mappings, email);
    }

    /** `get_created_issues`: the stored keys, or `[]` when the read fails. */
    method GetCreatedIssues() returns (keys: seq<string>)
      ensures keys == StoredKeys(issues) || keys == []
    {
      var readOk: bool :| true;
      if readOk {
        keys := StoredKeys(issues);
      } else {
        keys := [];
      }
    }

    /** `save_created_issue`: appends the record, unless the insert fails (which is only logged). */
    method SaveCreatedIssue(issueKey: string, channelId: string, summary: string) returns (ghost saved: bool)
      modifies this
      ensures issues == old(issues) + (if saved then [IssueRecord(issueKey, channelId, summary)] else [])
    {
      var insertOk: bool :| true;
      if insertOk {
        issues := issues + [IssueRecord(issueKey, channelId, summary)];
      }
      saved := insertOk;
    }
  }
}
