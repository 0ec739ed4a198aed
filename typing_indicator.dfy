/** The sentence shown under the message list while other users type. */
module TypingIndicator {

  import opened Optional
  import opened JsString

  /** The component's `displayText`, or None where it renders nothing. */
  function DisplayText(users: seq<string>): (r: Option<string>)
    ensures r.None? <==> users == []
    ensures r.Some? ==> EndsWith(r.value, " typing")
    ensures |users| >= 3 ==>
              var t := r.value;
              var n := |t| - |" people are typing"|;
              && |t| > |" people are typing"| && t[n..] == " people are typing"
              && AllDigits(t[..n]) && (t[0] == '0' ==> |users| == 0)
              && ParseDecimal(t[..n]) == |users|
  {
    if |users| == 0 then None
    else if |users| == 1 then Some(users[0] + " is typing")
    else if |users| == 2 then Some(users[0] + " and " + users[1] + " are typing")
    else
      var count := NatToString(|users|);
      var t := count + " people are typing";
      assert t[..|count|] == count;
      ParseNatToString(|users|);
      Some(t)
  }

  /** With one or two typists every name is shown, in list order: the first
      name, then " is typing"; or the first name, " and ", the second name,
      then " are typing". */
  lemma NamesInOrder(users: seq<string>)
    requires 1 <= |users| <= 2
    ensures DisplayText(users).Some? && StartsWith(DisplayText(users).value, users[0])
    ensures |users| == 1 ==>
              var t := DisplayText(users).value;
              |t| == |users[0]| + 10 && t[|users[0]|..] == " is typing"
    ensures |users| == 2 ==>
              var t, k := DisplayText(users).value, |users[0]| + |" and "|;
              && |t| == k + |users[1]| + 11
              && t[|users[0]|..k] == " and "
              && t[k..k + |users[1]|] == users[1]
              && t[k + |users[1]|..] == " are typing"
  {
    var t := DisplayText(users).value;
    if |users| == 1 {
      assert t == users[0] + " is typing";
      assert t[..|users[0]|] == users[0];
      assert t[|users[0]|..] == " is typing";
    } else {
      var k := |users[0]| + 5;
      assert t == users[0] + " and " + users[1] + " are typing";
      assert t[..|users[0]|] == users[0];
      assert t[|users[0]|..k] == " and ";
      assert t[k..k + |users[1]|] == users[1];
      assert t[k + |users[1]|..] == " are typing";
    }
  }

  /** The verb agrees with the count: "is typing" exactly when one user types. */
  lemma SingularIffOne(users: seq<string>)
    requires users != []
    ensures EndsWith(DisplayText(users).value, " is typing") <==> |users| == 1
  {
    var t := DisplayText(users).value;
    if |users| == 1 {
      assert t[|t| - 10..] == " is typing";
    } else {
      assert t[|t| - 11..] == " are typing";
      assert t[|t| - 10] == t[|t| - 11..][1] == 'a';
    }
  }

  /** From three typists on, the text depends on how many there are and not
      on who they are; different counts give different texts. */
  lemma {:induction false} CountOnly(u: seq<string>, v: seq<string>)
    requires |u| >= 3 && |v| >= 3
    ensures DisplayText(u) == DisplayText(v) <==> |u| == |v|
  {
    var tail := " people are typing";
    var a, b := NatToString(|u|), NatToString(|v|);
    if DisplayText(u) == DisplayText(v) {
      assert a + tail == b + tail;
      assert a == (a + tail)[..|a + tail| - |tail|];
      assert b == (b + tail)[..|b + tail| - |tail|];
      NatToStringInjective(|u|, |v|);
    }
  }
}
