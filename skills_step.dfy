/** The skills step of the CV builder: a list of skills (the `data` prop) and the
    text box (`inputValue`). Adding appends the trimmed text unless it is blank
    or already listed; removing drops every copy of a skill. */
module SkillsStep {
  import opened Lists
  import opened Text

  /** No skill occurs twice. */
  predicate Distinct(s: seq<string>)
  {
    forall i, j :: 0 <= i < j < |s| ==> s[i] != s[j]
  }

  /** The guard of `addSkill`: the trimmed input is non-empty and not yet
      listed (exact, case-sensitive comparison). */
  predicate Accepts(data: seq<string>, input: string)
  {
    Trim(input) != "" && Trim(input) !in data
  }

  /** The list `addSkill` hands to `onUpdate`, or the list unchanged when it
      hands over nothing. */
  function WithSkillAdded(data: seq<string>, input: string): (r: seq<string>)
    ensures Accepts(data, input) ==> |r| == |data| + 1 && r[..|data|] == data
    ensures !Accepts(data, input) ==> r == data
  {
    if Accepts(data, input) then data + [Trim(input)] else data
  }

  /** `s => s !== skill`. */
  function Differs(skill: string): string -> bool
  {
    s => s != skill
  }

  /** `data.filter((s) => s !== skill)`. */
  function WithoutSkill(data: seq<string>, skill: string): (r: seq<string>)
    ensures |r| <= |data|
  {
    Filter(data, Differs(skill))
  }

  // ---------------------------------------------------------------- properties

  /** A skill that `addSkill` appends is the trimmed input: non-empty, with no
      white space at either end, and new to the list. */
  lemma AddedSkill(data: seq<string>, input: string)
    requires Accepts(data, input)
    ensures var r := WithSkillAdded(data, input);
      var s := r[|data|];
      s == Trim(input) && s != "" && !IsSpace(s[0]) && !IsSpace(s[|s| - 1]) && s !in data
  {
    TrimShape(input);
  }

  /** A list without duplicates keeps none after `addSkill`. */
  lemma AddKeepsDistinct(data: seq<string>, input: string)
    requires Distinct(data)
    ensures Distinct(WithSkillAdded(data, input))
  {
  }

  /** Adding the same text twice adds it once. */
  lemma {:induction false} AddTwice(data: seq<string>, input: string)
    ensures WithSkillAdded(WithSkillAdded(data, input), input) == WithSkillAdded(data, input)
  {
    if Accepts(data, input) {
      var r := data + [Trim(input)];
      assert r[|data|] == Trim(input);
      assert Trim(input) in r;
    }
  }

  /** `removeSkill` leaves no copy of the skill and keeps every other skill as
      many times as it occurred. */
  lemma RemoveSkillCounts(data: seq<string>, skill: string, other: string)
    ensures skill !in WithoutSkill(data, skill)
    ensures other != skill ==> multiset(WithoutSkill(data, skill))[other] == multiset(data)[other]
  {
    FilterMember(data, Differs(skill), skill);
    FilterCount(data, Differs(skill), other);
  }

  /** Removing a skill removes it from either part of a list put together, so
      the order of the others is kept. */
  lemma RemoveSkillConcat(a: seq<string>, b: seq<string>, skill: string)
    ensures WithoutSkill(a + b, skill) == WithoutSkill(a, skill) + WithoutSkill(b, skill)
  {
    FilterConcat(a, b, Differs(skill));
  }

  /** Removing a skill that is not listed changes nothing. */
  lemma RemoveAbsent(data: seq<string>, skill: string)
    requires skill !in data
    ensures WithoutSkill(data, skill) == data
  {
    FilterKeepsAll(data, Differs(skill));
  }

  /** Removing keeps a list without duplicates free of them. */
  lemma {:induction false} RemoveKeepsDistinct(data: seq<string>, skill: string)
    requires Distinct(data)
    ensures Distinct(WithoutSkill(data, skill))
  {
    if data != [] {
      var rest := data[1..];
      assert Distinct(rest);
      RemoveKeepsDistinct(rest, skill);
      FilterMember(rest, Differs(skill), data[0]);
    }
  }

  /** Adding a new skill and then removing it gives back the list. */
  lemma AddThenRemove(data: seq<string>, input: string)
    requires Accepts(data, input)
    ensures WithoutSkill(WithSkillAdded(data, input), Trim(input)) == data
  {
    var s := Trim(input);
    FilterConcat(data, [s], Differs(s));
    RemoveAbsent(data, s);
    assert Filter([s], Differs(s)) == [];
  }

  /** The component: the list it was given and its text box. `onUpdate` is
      modelled by replacing `data`, as the page does with the list it receives. */
  class SkillsEditor {
    var data: seq<string>
    var inputValue: string

    /** `useState("")`. */
    constructor (initial: seq<string>)
      ensures data == initial && inputValue == ""
    {
      data := initial;
      inputValue := "";
    }

    /** The text box's `onChange`. */
    method SetInput(value: string)
      modifies this
      ensures inputValue == value && data == old(data)
    {
      inputValue := value;
    }

    /** `addSkill`: on success the list grows by the trimmed text and the
        box is cleared; otherwise nothing changes. */
    method AddSkill()
      modifies this
      ensures data == WithSkillAdded(old(data), old(inputValue))
      ensures inputValue == if Accepts(old(data), old(inputValue)) then "" else old(inputValue)
    {
      var skill := Trim(inputValue);
      if skill != "" && skill !in data {
        data := data + [skill];
        inputValue := "";
      }
    }

    /** `removeSkill`. */
    method RemoveSkill(skill: string)
      modifies this
      ensures data == WithoutSkill(old(data), skill) && inputValue == old(inputValue)
    {
      data := WithoutSkill(data, skill);
    }

    /** `handleKeyPress`: Enter adds (and the key's default action is
        prevented); any other key changes nothing. */
    method HandleKeyPress(key: string) returns (prevented: bool)
      modifies this
      ensures prevented <==> key == "Enter"
      ensures key == "Enter" ==> data == WithSkillAdded(old(data), old(inputValue))
      ensures key == "Enter" ==> inputValue == if Accepts(old(data), old(inputValue)) then "" else old(inputValue)
      ensures key != "Enter" ==> data == old(data) && inputValue == old(inputValue)
    {
      prevented := key == "Enter";
      if prevented {
        AddSkill();
      }
    }
  }
}
