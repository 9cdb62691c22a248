/** The text codecs the table rows rely on can exist: a list encoding and a time encoding that
    together are faithful in the sense of `Rows.Faithful`. */
module Codecs {
  import opened Options
  import opened Text
  import opened Rows

  /** Every character is announced by 'c', every item closed by 'e'. */
  function ItemText(s: string): string {
    if s == [] then "e" else ['c', s[0]] + ItemText(s[1..])
  }

  function ItemsText(xs: seq<string>): string {
    if xs == [] then "" else ItemText(xs[0]) + ItemsText(xs[1..])
  }

  function Items(text: string, item: string): Option<seq<string>> {
    if text == "" then if item == "" then Some([]) else None
    else if text[0] == 'e' then
      (match Items(text[1..], "") case None => None case Some(rest) => Some([item] + rest))
    else if text[0] == 'c' && |text| >= 2 then Items(text[2..], item + [text[1]])
    else None
  }

  lemma {:induction false} ItemRead(s: string, rest: string, item: string)
    ensures Items(ItemText(s) + rest, item) ==
      match Items(rest, "") case None => None case Some(xs) => Some([item + s] + xs)
    decreases |s|
  {
    var text := ItemText(s) + rest;
    if s == [] {
      assert text[1..] == rest && item + s == item;
    } else {
      assert text[2..] == ItemText(s[1..]) + rest;
      ItemRead(s[1..], rest, item + [s[0]]);
      assert item + [s[0]] + s[1..] == item + s;
    }
  }

  lemma {:induction false} ItemsRead(xs: seq<string>)
    ensures Items(ItemsText(xs), "") == Some(xs)
  {
    if xs == [] {
    } else {
      ItemsRead(xs[1..]);
      ItemRead(xs[0], ItemsText(xs[1..]), "");
      assert "" + xs[0] == xs[0];
      assert xs == [xs[0]] + xs[1..];
    }
  }

  function ListText(xs: seq<string>): string { "l" + ItemsText(RepairAll(xs)) }

  function ListOf(text: string): Option<seq<string>> {
    if text == "null" then Some([]) else if text == "" then None else Items(text[1..], "")
  }

  lemma ListRead(xs: seq<string>)
    ensures ListOf(ListText(xs)) == Some(RepairAll(xs)) && ListText(xs) != "" && ListText(xs) != "[]"
  {
    var t := ListText(xs);
    assert t[0] == 'l' && t[1..] == ItemsText(RepairAll(xs));
    assert "null"[0] == 'n' && "[]"[0] == '[';
    ItemsRead(RepairAll(xs));
  }

  lemma TimeRead(t: int)
    ensures Atoi(IntText(t)) == Some(t) && IntText(t) != ""
  {
    if t >= 0 {
      AtoiItoa(t);
    } else {
      AtoiItoa(-t);
      var s := IntText(t);
      assert s[0] == '-' && s[1..] == Itoa(-t);
      assert !Digit(s[0]);
    }
  }

  lemma FaithfulCodecsExist()
    ensures exists k :: Faithful(k)
  {
    var k := Codec(ListText, ListOf, IntText, Atoi);
    forall xs
      ensures k.listOf(k.listText(xs)) == Some(RepairAll(xs)) && k.listText(xs) != "" && k.listText(xs) != "[]"
    {
      ListRead(xs);
    }
    forall t: int ensures k.timeOf(k.timeText(t)) == Some(t) && k.timeText(t) != "" {
      TimeRead(t);
    }
    assert Faithful(k);
  }
}
