/**
 * The part of Go's `fmt.Sprintf` the topic templates use: a format string
 * with exactly one `%s` verb and no other `%`, rendered with one string
 * argument.
 */
module Fmt {

  /** `t` holds exactly one `%`, and it starts a `%s` verb. */
  predicate IsTemplate(t: string)
    decreases |t|
  {
    |t| >= 2 &&
    if t[0] == '%' then t[1] == 's' && '%' !in t[2..] else IsTemplate(t[1..])
  }

  /** The `%s` verb of `t` starts at index `i`, and no other `%` occurs in `t`. */
  ghost predicate VerbAt(t: string, i: int) {
    0 <= i < |t| - 1 && t[i] == '%' && t[i + 1] == 's' &&
    forall j :: 0 <= j < |t| && t[j] == '%' ==> j == i
  }

  /** The recursive check agrees with the positional description, both ways. */
  lemma {:induction false} IsTemplateIff(t: string)
    ensures IsTemplate(t) <==> exists i :: VerbAt(t, i)
    decreases |t|
  {
    if |t| < 2 {
      if i :| VerbAt(t, i) { assert false; }
    } else if t[0] == '%' {
      if IsTemplate(t) {
        assert forall k :: 2 <= k < |t| ==> t[k] == t[2..][k - 2];
        assert VerbAt(t, 0);
      }
      if i :| VerbAt(t, i) {
        assert i == 0;
        assert '%' !in t[2..] by {
          forall k | 0 <= k < |t[2..]| ensures t[2..][k] != '%' {
            assert t[2..][k] == t[k + 2];
          }
        }
      }
    } else {
      IsTemplateIff(t[1..]);
      if IsTemplate(t) {
        var i :| VerbAt(t[1..], i);
        forall j | 0 <= j < |t| && t[j] == '%' ensures j == i + 1 {
          assert t[1..][j - 1] == '%';
        }
        assert VerbAt(t, i + 1);
      }
      if i :| VerbAt(t, i) {
        assert i >= 1;
        forall j | 0 <= j < |t[1..]| && t[1..][j] == '%' ensures j == i - 1 {
          assert t[j + 1] == '%';
        }
        assert VerbAt(t[1..], i - 1);
      }
    }
  }

  /**
   * `fmt.Sprintf(t, arg)` for a one-verb template: the `%s` is replaced by
   * `arg` verbatim (a `%s` inside `arg` is not expanded again) and every
   * other character of `t` is kept in place.
   */
  function Sprintf(t: string, arg: string): (r: string)
    requires IsTemplate(t)
    ensures |r| == |t| - 2 + |arg|
    ensures forall i :: 0 <= i < |t| && t[i] == '%' ==>
              i + 1 < |t| && r == t[..i] + arg + t[i + 2..]
    decreases |t|
  {
    if t[0] == '%' then
      assert forall i :: 2 <= i < |t| ==> t[i] == t[2..][i - 2];
      arg + t[2..]
    else
      var rest := Sprintf(t[1..], arg);
      forall i | 1 <= i < |t| && t[i] == '%'
        ensures [t[0]] + rest == t[..i] + arg + t[i + 2..]
      {
        assert t[1..][i - 1] == '%';
        assert t[..i] == [t[0]] + t[1..][..i - 1];
        assert t[i + 2..] == t[1..][i + 1..];
      }
      [t[0]] + rest
  }

  /**
   * Every one-verb template has its verb at one definite place, and
   * rendering puts the argument exactly there.
   */
  lemma SprintfAtVerb(t: string, arg: string)
    requires IsTemplate(t)
    ensures exists i :: VerbAt(t, i) && Sprintf(t, arg) == t[..i] + arg + t[i + 2..]
  {
    IsTemplateIff(t);
    var i :| VerbAt(t, i);
    assert Sprintf(t, arg) == t[..i] + arg + t[i + 2..];
  }

  /** With the template the program ships, app id "app-42" gives "app-log-app-42". */
  lemma AppLogExample()
    ensures IsTemplate("app-log-%s")
    ensures Sprintf("app-log-%s", "app-42") == "app-log-app-42"
  {
    var t := "app-log-%s";
    assert VerbAt(t, 8);
    IsTemplateIff(t);
    assert t[..8] == "app-log-" && t[10..] == "";
  }
}
