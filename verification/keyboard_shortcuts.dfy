/**
  Alt+key navigation shortcuts (src/hooks/useKeyboardShortcuts.ts).
 */
module KeyboardShortcuts {
  import opened Wrappers

  datatype KeyEvent = KeyEvent(key: string, altKey: bool, ctrlKey: bool, shiftKey: bool, metaKey: bool)

  /** What a shortcut does: go to a route, or scroll to the top or bottom of the page. */
  datatype Action = Navigate(route: string) | ScrollTop | ScrollBottom

  /** The handler's effect: the action taken, if any, and whether the browser default was prevented. */
  datatype Handled = Handled(action: Option<Action>, preventDefault: bool)

  /** Lower-casing of one character; only the ASCII letters A-Z change. */
  function LowerChar(c: char): (d: char)
    ensures 'A' <= c <= 'Z' ==> 'a' <= d <= 'z' && d as int - c as int == 32
    ensures !('A' <= c <= 'Z') ==> d == c
  {
    if 'A' <= c <= 'Z' then (c as int + 32) as char else c
  }

  /** `String.prototype.toLowerCase` restricted to ASCII letters. */
  function ToLower(s: string): (t: string)
    ensures |t| == |s|
    ensures forall i :: 0 <= i < |s| ==> t[i] == LowerChar(s[i])
  {
    seq(|s|, i requires 0 <= i < |s| => LowerChar(s[i]))
  }

  /** The eight shortcut letters and what each does. */
  function KeyAction(k: string): (r: Option<Action>)
    ensures r.Some? <==> k in ["h", "a", "e", "p", "d", "c", "t", "b"]
    ensures forall i :: 0 <= i < |NavigationKeys| && k == [NavigationKeys[i].0] ==>
              r == Some(Navigate(NavigationKeys[i].1))
    ensures k == "t" ==> r == Some(ScrollTop)
    ensures k == "b" ==> r == Some(ScrollBottom)
  {
    if k == "h" then Some(Navigate("/"))
    else if k == "a" then Some(Navigate("/about"))
    else if k == "e" then Some(Navigate("/experience"))
    else if k == "p" then Some(Navigate("/projects"))
    else if k == "d" then Some(Navigate("/education"))
    else if k == "c" then Some(Navigate("/contact"))
    else if k == "t" then Some(ScrollTop)
    else if k == "b" then Some(ScrollBottom)
    else None
  }

  /** Only Alt held, with Ctrl, Shift and Meta all released, lets a shortcut fire. */
  predicate OnlyAlt(e: KeyEvent)
  {
    e.altKey && !e.ctrlKey && !e.shiftKey && !e.metaKey
  }

  /** `handleKeyPress`: the modifier filter, then the lower-cased key looked up in the table. */
  function HandleKeyPress(e: KeyEvent): (r: Handled)
    ensures !OnlyAlt(e) ==> r.action.None?
    ensures r.preventDefault <==> r.action.Some?
    ensures OnlyAlt(e) ==> r.action == KeyAction(ToLower(e.key))
  {
    if OnlyAlt(e) then
      var action := KeyAction(ToLower(e.key));
      Handled(action, action.Some?)
    else
      Handled(None, false)
  }

  /** The routes reachable by shortcut, one per navigation letter. */
  const NavigationKeys: seq<(char, string)> :=
    [('h', "/"), ('a', "/about"), ('e', "/experience"), ('p', "/projects"), ('d', "/education"), ('c', "/contact")]

  /**
    With only Alt held, each navigation letter, typed in either case, goes to
    its route; `t` and `b` scroll to the top and bottom.
   */
  lemma ShortcutTable(c: char, alt: bool, ctrl: bool, shift: bool, meta: bool)
    requires alt && !ctrl && !shift && !meta
    ensures forall k :: 0 <= k < |NavigationKeys| && LowerChar(c) == NavigationKeys[k].0 ==>
              HandleKeyPress(KeyEvent([c], alt, ctrl, shift, meta)) == Handled(Some(Navigate(NavigationKeys[k].1)), true)
    ensures LowerChar(c) == 't' ==> HandleKeyPress(KeyEvent([c], alt, ctrl, shift, meta)) == Handled(Some(ScrollTop), true)
    ensures LowerChar(c) == 'b' ==> HandleKeyPress(KeyEvent([c], alt, ctrl, shift, meta)) == Handled(Some(ScrollBottom), true)
  {
    assert ToLower([c]) == [LowerChar(c)];
  }

  /** Any key other than the eight letters, in either case, does nothing and leaves the default alone. */
  lemma OtherKeysIgnored(e: KeyEvent)
    requires forall c :: c in "haepdctb" ==> ToLower(e.key) != [c]
    ensures HandleKeyPress(e) == Handled(None, false)
  {
    assert forall c :: c in "haepdctb" ==> [c] in ["h", "a", "e", "p", "d", "c", "t", "b"];
  }

  /** Upper- and lower-case forms of a key do the same thing. */
  lemma CaseInsensitive(e: KeyEvent)
    ensures HandleKeyPress(e.(key := ToLower(e.key))) == HandleKeyPress(e)
  {
    LowerIdempotent(e.key);
  }

  lemma LowerIdempotent(s: string)
    ensures ToLower(ToLower(s)) == ToLower(s)
  {
  }
}
