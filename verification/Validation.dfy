/** The validation middleware: body, params and query are parsed in that order, and the issues of the
    first target that fails are grouped by field. */
module Validation {
  import opened Domain

  datatype Issue = Issue(path: seq<string>, message: string)

  type Errors = map<string, seq<string>>

  /** `path.join('.') || 'root'`. */
  function Field(path: seq<string>): string {
    var joined := Join(path);
    if joined == "" then "root" else joined
  }

  function Join(path: seq<string>): string {
    if path == [] then "" else if |path| == 1 then path[0] else path[0] + "." + Join(path[1..])
  }

  /** An issue's field: `root` without a path or with an empty one, a single key by its name, and a longer
      path by its parts with a dot between them. */
  lemma {:induction false} FieldNames(key: string, path: seq<string>, rest: seq<string>)
    ensures Field([]) == "root" && Field([""]) == "root"
    ensures key != "" ==> Field([key]) == key
    ensures path != [] && rest != [] ==> Join(path + rest) == Join(path) + "." + Join(rest)
    ensures |path| >= 2 ==> Field(path) == Join(path)
  {
    if path != [] && rest != [] {
      assert (path + rest)[1..] == path[1..] + rest;
      if |path| > 1 { FieldNames(key, path[1..], rest); } else { assert path + rest == [path[0]] + rest; }
    }
  }

  /** The messages of the issues of one field, in order. */
  ghost function MessagesFor(issues: seq<Issue>, field: string): seq<string> {
    if issues == [] then [] else
    var init, last := issues[..|issues| - 1], issues[|issues| - 1];
    MessagesFor(init, field) + if Field(last.path) == field then [last.message] else []
  }

  ghost predicate Mentions(issues: seq<Issue>, field: string) {
    exists k :: 0 <= k < |issues| && Field(issues[k].path) == field
  }

  /** The grouped record: a key for each field mentioned and no other, holding its messages in order. */
  ghost predicate Groups(issues: seq<Issue>, errors: Errors) {
    && (forall field :: field in errors <==> Mentions(issues, field))
    && (forall field :: field in errors ==> errors[field] == MessagesFor(issues, field))
  }

  /** The one record that groups a list. */
  ghost function Grouped(issues: seq<Issue>): Errors {
    map field | field in (set k | 0 <= k < |issues| :: Field(issues[k].path)) :: MessagesFor(issues, field)
  }

  lemma GroupsIsGrouped(issues: seq<Issue>, errors: Errors)
    requires Groups(issues, errors)
    ensures errors == Grouped(issues)
  {
    forall field ensures field in errors <==> field in Grouped(issues) {
      assert Mentions(issues, field) <==> field in (set k | 0 <= k < |issues| :: Field(issues[k].path));
    }
  }

  lemma MentionsSnoc(issues: seq<Issue>, last: Issue)
    ensures forall field :: Mentions(issues + [last], field) <==> Mentions(issues, field) || Field(last.path) == field
  {
    var all := issues + [last];
    forall field | Mentions(issues, field) || Field(last.path) == field ensures Mentions(all, field) {
      if Mentions(issues, field) {
        var k :| 0 <= k < |issues| && Field(issues[k].path) == field;
        assert all[k] == issues[k];
      } else {
        assert all[|issues|] == last;
      }
    }
  }

  lemma {:induction false} UnmentionedIsEmpty(issues: seq<Issue>, field: string)
    requires !Mentions(issues, field)
    ensures MessagesFor(issues, field) == []
  {
    if issues != [] {
      var init := issues[..|issues| - 1];
      assert forall k :: 0 <= k < |init| ==> init[k] == issues[k];
      UnmentionedIsEmpty(init, field);
    }
  }

  /** One turn of the loop: a missing key starts empty, then the message goes to the end. */
  lemma GroupOne(issues: seq<Issue>, last: Issue, errors: Errors)
    requires Groups(issues, errors)
    ensures var field := Field(last.path);
      var before := if field in errors then errors[field] else [];
      Groups(issues + [last], errors[field := before + [last.message]])
  {
    MentionsSnoc(issues, last);
    assert (issues + [last])[..|issues|] == issues;
    if Field(last.path) !in errors { UnmentionedIsEmpty(issues, Field(last.path)); }
  }

  /** The `forEach` loop. `inherited` are the property names every plain object already has (`constructor`,
      `toString` and the like): such a field reads as present, and pushing onto it throws. The record is
      complete exactly when no issue names one of them. */
  method GroupErrors(issues: seq<Issue>, inherited: set<string>) returns (r: Option<Errors>)
    ensures r.Some? <==> forall k :: 0 <= k < |issues| ==> Field(issues[k].path) !in inherited
    ensures r.Some? ==> Groups(issues, r.value)
  {
    var errors: Errors := map[];
    for i := 0 to |issues|
      invariant forall k :: 0 <= k < i ==> Field(issues[k].path) !in inherited
      invariant Groups(issues[..i], errors)
    {
      var field := Field(issues[i].path);
      if field in inherited { return None; }
      GroupOne(issues[..i], issues[i], errors);
      assert issues[..i + 1] == issues[..i] + [issues[i]];
      if field !in errors { errors := errors[field := []]; }
      errors := errors[field := errors[field] + [issues[i].message]];
    }
    assert issues[..|issues|] == issues;
    return Some(errors);
  }

  // ---- conservation ----

  ghost function Pick(fields: set<string>): string requires fields != {} {
    var f :| f in fields; f
  }

  /** The number of messages a record holds under the given keys. */
  ghost function Count(errors: Errors, fields: set<string>): nat requires fields <= errors.Keys {
    if fields == {} then 0 else |errors[Pick(fields)]| + Count(errors, fields - {Pick(fields)})
  }

  ghost function CountIssues(issues: seq<Issue>, fields: set<string>): nat {
    if fields == {} then 0 else |MessagesFor(issues, Pick(fields))| + CountIssues(issues, fields - {Pick(fields)})
  }

  lemma {:induction false} CountSnoc(issues: seq<Issue>, fields: set<string>)
    requires issues != []
    ensures CountIssues(issues, fields) == CountIssues(issues[..|issues| - 1], fields)
              + if Field(issues[|issues| - 1].path) in fields then 1 else 0
  {
    if fields != {} { CountSnoc(issues, fields - {Pick(fields)}); }
  }

  lemma {:induction false} CountAll(issues: seq<Issue>, fields: set<string>)
    requires forall k :: 0 <= k < |issues| ==> Field(issues[k].path) in fields
    ensures CountIssues(issues, fields) == |issues|
  {
    if issues != [] {
      CountSnoc(issues, fields);
      CountAll(issues[..|issues| - 1], fields);
    } else {
      CountNone(fields);
    }
  }

  lemma {:induction false} CountNone(fields: set<string>)
    ensures CountIssues([], fields) == 0
  {
    if fields != {} { CountNone(fields - {Pick(fields)}); }
  }

  lemma {:induction false} CountsAgree(issues: seq<Issue>, errors: Errors, fields: set<string>)
    requires Groups(issues, errors) && fields <= errors.Keys
    ensures Count(errors, fields) == CountIssues(issues, fields)
  {
    if fields != {} {
      assert Pick(fields) in errors;
      CountsAgree(issues, errors, fields - {Pick(fields)});
    }
  }

  /** Grouping loses and repeats nothing: the record holds as many messages as there are issues, each
      message of the list under its own field. */
  lemma GroupingConserves(issues: seq<Issue>, errors: Errors)
    requires Groups(issues, errors)
    ensures Count(errors, errors.Keys) == |issues|
    ensures forall k :: 0 <= k < |issues| ==>
      Field(issues[k].path) in errors && issues[k].message in errors[Field(issues[k].path)]
  {
    forall k | 0 <= k < |issues|
      ensures Field(issues[k].path) in errors && issues[k].message in errors[Field(issues[k].path)]
    {
      assert Mentions(issues, Field(issues[k].path));
      MessageKept(issues, k);
    }
    CountsAgree(issues, errors, errors.Keys);
    CountAll(issues, errors.Keys);
  }

  lemma {:induction false} MessageKept(issues: seq<Issue>, k: nat)
    requires k < |issues|
    ensures issues[k].message in MessagesFor(issues, Field(issues[k].path))
  {
    if k < |issues| - 1 { MessageKept(issues[..|issues| - 1], k); }
  }
}
