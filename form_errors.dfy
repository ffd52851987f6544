/** How the storefront's forms turn zod's list of validation issues into the
    per-field `errors` object they display: every issue whose path starts with
    a field name writes its message under that field, in order, so the last
    issue for a field wins (Checkout.tsx and ComingSoon.tsx, `handleSubmit`). */
module FormErrors {

  /** One zod issue: the field named by `path[0]` and the issue's message. */
  datatype Issue<F> = Issue(field: F, message: string)

  /** The errors object after the `forEach` has assigned every issue in turn. */
  function LastMessages<F(==)>(issues: seq<Issue<F>>): map<F, string> {
    if issues == [] then map[]
    else
      var last := issues[|issues| - 1];
      LastMessages(issues[..|issues| - 1])[last.field := last.message]
  }

  /** No later issue concerns the same field as issue `i`. */
  predicate IsLastFor<F(==)>(issues: seq<Issue<F>>, i: nat)
    requires i < |issues|
  {
    forall j :: i < j < |issues| ==> issues[j].field != issues[i].field
  }

  /** A field has an error exactly when some issue names it. */
  lemma {:induction false} LastMessagesKeys<F>(issues: seq<Issue<F>>, f: F)
    ensures f in LastMessages(issues) <==> exists i :: 0 <= i < |issues| && issues[i].field == f
  {
    if issues != [] {
      var n := |issues|;
      var prefix := issues[..n - 1];
      LastMessagesKeys(prefix, f);
      if f in LastMessages(prefix) {
        var i :| 0 <= i < |prefix| && prefix[i].field == f;
        assert issues[i].field == f;
      }
      if exists i :: 0 <= i < n && issues[i].field == f {
        var i :| 0 <= i < n && issues[i].field == f;
        if i < n - 1 {
          assert prefix[i].field == f;
        }
      }
    }
  }

  /** The message kept for a field is the one of the last issue naming it. */
  lemma {:induction false} LastMessagesLastWins<F>(issues: seq<Issue<F>>, i: nat)
    requires i < |issues| && IsLastFor(issues, i)
    ensures issues[i].field in LastMessages(issues)
    ensures LastMessages(issues)[issues[i].field] == issues[i].message
  {
    var n := |issues|;
    if i < n - 1 {
      var prefix := issues[..n - 1];
      assert issues[n - 1].field != issues[i].field;
      assert prefix[i] == issues[i];
      assert IsLastFor(prefix, i) by {
        forall j | i < j < |prefix| ensures prefix[j].field != prefix[i].field {
          assert prefix[j] == issues[j];
        }
      }
      LastMessagesLastWins(prefix, i);
    }
  }

  /** Assigning the issues of `a` and then those of `b` leaves `a`'s errors
      overwritten by `b`'s wherever `b` names the same field. */
  lemma {:induction false} LastMessagesAppend<F>(a: seq<Issue<F>>, b: seq<Issue<F>>)
    ensures LastMessages(a + b) == LastMessages(a) + LastMessages(b)
    decreases |b|
  {
    if b == [] {
      assert a + b == a;
    } else {
      var n := |b|;
      assert (a + b)[..|a + b| - 1] == a + b[..n - 1];
      assert (a + b)[|a + b| - 1] == b[n - 1];
      LastMessagesAppend(a, b[..n - 1]);
    }
  }

  /** The issues one key raises, one per failed check, in check order. */
  function KeyIssues<F>(key: F, messages: seq<string>): (r: seq<Issue<F>>)
    ensures |r| == |messages|
    ensures forall i :: 0 <= i < |r| ==> r[i] == Issue(key, messages[i])
  {
    if messages == [] then [] else [Issue(key, messages[0])] + KeyIssues(key, messages[1..])
  }

  /** The issues of an object schema: those of each key, key by key in
      the order of the shape. */
  function ShapeIssues<F>(keys: seq<F>, messages: F -> seq<string>): seq<Issue<F>> {
    if keys == [] then [] else KeyIssues(keys[0], messages(keys[0])) + ShapeIssues(keys[1..], messages)
  }

  /** The errors object of one key's issues holds the last of its messages. */
  lemma {:induction false} KeyIssuesErrors<F>(key: F, messages: seq<string>)
    ensures LastMessages(KeyIssues(key, messages)) ==
      if messages == [] then map[] else map[key := messages[|messages| - 1]]
  {
    if messages != [] {
      var n := |messages|;
      var shorter := messages[..n - 1];
      var r := KeyIssues(key, messages);
      assert r[..n - 1] == KeyIssues(key, shorter);
      assert r[n - 1] == Issue(key, messages[n - 1]);
      KeyIssuesErrors(key, shorter);
      assert LastMessages(r) == LastMessages(KeyIssues(key, shorter))[key := messages[n - 1]];
    }
  }

  /** A schema raises no issue exactly when no key fails a check. */
  lemma {:induction false} ShapeIssuesEmpty<F>(keys: seq<F>, messages: F -> seq<string>)
    ensures ShapeIssues(keys, messages) == [] <==> forall i :: 0 <= i < |keys| ==> messages(keys[i]) == []
  {
    if keys != [] {
      ShapeIssuesEmpty(keys[1..], messages);
      if messages(keys[0]) == [] && ShapeIssues(keys[1..], messages) == [] {
        forall i | 0 <= i < |keys|
          ensures messages(keys[i]) == []
        {
          if i > 0 {
            assert keys[i] == keys[1..][i - 1];
          }
        }
      }
      if forall i :: 0 <= i < |keys| ==> messages(keys[i]) == [] {
        forall i | 0 <= i < |keys[1..]|
          ensures messages(keys[1..][i]) == []
        {
          assert keys[1..][i] == keys[i + 1];
        }
      }
    }
  }

  /** The errors object of a schema's issues has an entry for a key exactly
      when it is in the shape and failed a check, holding the message of the
      last check it failed. */
  lemma {:induction false} ShapeErrorsAt<F>(keys: seq<F>, messages: F -> seq<string>, f: F)
    ensures f in LastMessages(ShapeIssues(keys, messages)) <==> f in keys && messages(f) != []
    ensures f in LastMessages(ShapeIssues(keys, messages)) ==>
      LastMessages(ShapeIssues(keys, messages))[f] == messages(f)[|messages(f)| - 1]
  {
    if keys != [] {
      var head := KeyIssues(keys[0], messages(keys[0]));
      var rest := ShapeIssues(keys[1..], messages);
      ShapeErrorsAt(keys[1..], messages, f);
      KeyIssuesErrors(keys[0], messages(keys[0]));
      LastMessagesAppend(head, rest);
      assert f in keys <==> f == keys[0] || f in keys[1..];
    }
  }

  /** The last message of every key in the shape that failed a check. */
  function KeyErrors<F>(keys: seq<F>, messages: F -> seq<string>): map<F, string> {
    map f | f in keys && messages(f) != [] :: messages(f)[|messages(f)| - 1]
  }

  /** Filling the errors object from a schema's issues keeps, for each key that
      failed a check, the message of the last check it failed, and nothing else. */
  lemma ShapeErrors<F>(keys: seq<F>, messages: F -> seq<string>)
    ensures LastMessages(ShapeIssues(keys, messages)) == KeyErrors(keys, messages)
  {
    var collected := LastMessages(ShapeIssues(keys, messages));
    var expected := KeyErrors(keys, messages);
    forall f | f in collected
      ensures f in expected && collected[f] == expected[f]
    {
      ShapeErrorsAt(keys, messages, f);
    }
    forall f | f in expected
      ensures f in collected
    {
      ShapeErrorsAt(keys, messages, f);
    }
  }

  /** The `forEach` over the issues, filling a fresh errors object. */
  method CollectFieldErrors<F(==)>(issues: seq<Issue<F>>) returns (errors: map<F, string>)
    ensures errors == LastMessages(issues)
  {
    errors := map[];
    var k := 0;
    while k < |issues|
      invariant 0 <= k <= |issues|
      invariant errors == LastMessages(issues[..k])
    {
      assert issues[..k + 1][..k] == issues[..k];
      errors := errors[issues[k].field := issues[k].message];
      k := k + 1;
    }
    assert issues[..k] == issues;
  }
}
