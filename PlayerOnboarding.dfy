/**
  The sign-up form (src/components/PlayerOnboarding.jsx): name, grade and age are
  checked in that order, the first failure's message is shown, and a valid form
  creates the player with the trimmed name.
 */
module PlayerOnboarding {
  import opened Wrappers
  import opened ScoreManager

  const NameError: string := "Please enter your name"
  const GradeError: string := "Please select your grade"
  const AgeError: string := "Please enter a valid age"
  const CreateError: string := "Failed to create player. Please try again."

  /**
    The form fields. The age input is of type number, so the browser hands over
    either nothing (an empty string) or the text of a number.
   */
  datatype FormData = FormData(name: string, grade: string, age: Option<real>)

  datatype Edit = EditName(name: string) | EditGrade(grade: string) | EditAge(age: Option<real>)

  /** The characters `String.prototype.trim` removes (ECMAScript WhiteSpace and LineTerminator). */
  predicate IsWhitespace(c: char) {
    || c == '\t' || c == '\n' || c == '\U{000B}' || c == '\U{000C}' || c == '\r' || c == ' '
    || c == '\U{00A0}' || c == '\U{1680}' || ('\U{2000}' <= c <= '\U{200A}')
    || c == '\U{2028}' || c == '\U{2029}' || c == '\U{202F}' || c == '\U{205F}'
    || c == '\U{3000}' || c == '\U{FEFF}'
  }

  /** The first index at or after `i` that does not hold white space, or |s| when there is none. */
  function SkipLeading(s: string, i: nat): (j: nat)
    requires i <= |s|
    ensures i <= j <= |s|
    ensures forall k :: i <= k < j ==> IsWhitespace(s[k])
    ensures j < |s| ==> !IsWhitespace(s[j])
    decreases |s| - i
  {
    if i < |s| && IsWhitespace(s[i]) then SkipLeading(s, i + 1) else i
  }

  /** The end, no earlier than `lo`, left after removing the white space that comes before index `j`. */
  function SkipTrailing(s: string, lo: nat, j: nat): (k: nat)
    requires lo <= j <= |s|
    ensures lo <= k <= j
    ensures forall m :: k <= m < j ==> IsWhitespace(s[m])
    ensures k > lo ==> !IsWhitespace(s[k - 1])
    decreases j
  {
    if j > lo && IsWhitespace(s[j - 1]) then SkipTrailing(s, lo, j - 1) else j
  }

  /** Where `s.trim()` starts in `s`. */
  function TrimStartIndex(s: string): nat
    ensures TrimStartIndex(s) <= |s|
  {
    SkipLeading(s, 0)
  }

  /** `s.trim()`: the slice of `s` left after white space is removed from both ends. */
  function Trim(s: string): (r: string)
    ensures TrimStartIndex(s) + |r| <= |s|
    ensures r == s[TrimStartIndex(s)..TrimStartIndex(s) + |r|]
    ensures forall i :: 0 <= i < TrimStartIndex(s) ==> IsWhitespace(s[i])
    ensures forall i :: TrimStartIndex(s) + |r| <= i < |s| ==> IsWhitespace(s[i])
    ensures |r| > 0 ==> !IsWhitespace(r[0]) && !IsWhitespace(r[|r| - 1])
  {
    var lo := SkipLeading(s, 0);
    var hi := SkipTrailing(s, lo, |s|);
    s[lo..hi]
  }

  /** A name is blank exactly when every character of it is white space. */
  lemma TrimEmptyIffBlank(s: string)
    ensures Trim(s) == [] <==> forall i :: 0 <= i < |s| ==> IsWhitespace(s[i])
  {
    if Trim(s) != [] {
      assert s[TrimStartIndex(s)] == Trim(s)[0];
    }
  }

  /** The validation chain of `handleSubmit`: the message of the first failing check, if any. */
  function Validate(form: FormData): (error: Option<string>)
    ensures error == Some(NameError) <==> Trim(form.name) == ""
    ensures error == Some(GradeError) <==> Trim(form.name) != "" && form.grade == ""
    ensures error == Some(AgeError) <==>
              Trim(form.name) != "" && form.grade != "" && !(form.age.Some? && 1.0 <= form.age.value <= 100.0)
    ensures error.None? <==>
              Trim(form.name) != "" && form.grade != "" && form.age.Some? && 1.0 <= form.age.value <= 100.0
  {
    if Trim(form.name) == "" then Some(NameError)
    else if form.grade == "" then Some(GradeError)
    else if form.age.None? || form.age.value < 1.0 || form.age.value > 100.0 then Some(AgeError)
    else None
  }

  /** `parseInt` of the text of a number in 1..100: its integer part. */
  function ParsedAge(age: real): (n: int)
    requires 1.0 <= age <= 100.0
    ensures 1 <= n <= 100 && n as real <= age < n as real + 1.0
  {
    age.Floor
  }

  class Onboarding {
    var formData: FormData
    var error: string
    var isSubmitting: bool
    /** The route navigated to, once a player has been created. */
    var navigatedTo: Option<string>

    constructor ()
      ensures formData == FormData("", "", None) && error == "" && !isSubmitting && navigatedTo == None
    {
      formData := FormData("", "", None);
      error := "";
      isSubmitting := false;
      navigatedTo := None;
    }

    /** `handleChange`: one field takes the new value and any pending error is cleared. */
    method HandleChange(edit: Edit)
      modifies this`formData, this`error
      ensures formData == match edit
                          case EditName(n) => old(formData).(name := n)
                          case EditGrade(g) => old(formData).(grade := g)
                          case EditAge(a) => old(formData).(age := a)
      ensures error == ""
    {
      match edit {
        case EditName(n) => formData := formData.(name := n);
        case EditGrade(g) => formData := formData.(grade := g);
        case EditAge(a) => formData := formData.(age := a);
      }
      if error != "" {
        error := "";
      }
    }

    /**
      `handleSubmit`: on a failed check only its message is set and nothing is
      created; otherwise the player is created with the trimmed name and the page
      moves to "/" only when an id comes back. Submission always ends with
      `isSubmitting` false.
     */
    method HandleSubmit(store: ScoreStore, newId: string, insertFails: bool)
      modifies this`error, this`isSubmitting, this`navigatedTo, store`players, store`currentPlayerId
      ensures Validate(formData).Some? ==>
                && error == Validate(formData).value
                && store.players == old(store.players) && store.currentPlayerId == old(store.currentPlayerId)
                && navigatedTo == old(navigatedTo) && isSubmitting == old(isSubmitting)
      ensures Validate(formData).None? ==>
                var created := !insertFails && newId !in old(store.players);
                && !isSubmitting
                && store.players == (if created
                                     then old(store.players)[newId := NewPlayer(Trim(formData.name), formData.grade,
                                                                               ParsedAge(formData.age.value))]
                                     else old(store.players))
                && store.currentPlayerId == (if created then Some(newId) else old(store.currentPlayerId))
                && (created && newId != "" ==> navigatedTo == Some("/") && error == "")
                && (!(created && newId != "") ==> navigatedTo == old(navigatedTo) && error == CreateError)
    {
      error := "";
      var failure := Validate(formData);
      if failure.Some? {
        error := failure.value;
        return;
      }
      var name := Trim(formData.name);
      var age := ParsedAge(formData.age.value);
      assert store.players == old(store.players) && store.currentPlayerId == old(store.currentPlayerId);
      CreateAndNavigate(store, name, formData.grade, age, newId, insertFails);
      assert Validate(formData) == failure;
    }

    /** The part of `handleSubmit` after validation: create the player, then navigate or report. */
    method CreateAndNavigate(store: ScoreStore, name: string, grade: string, age: int, newId: string, insertFails: bool)
      modifies this`error, this`isSubmitting, this`navigatedTo, store`players, store`currentPlayerId
      ensures !isSubmitting
      ensures var created := !insertFails && newId !in old(store.players);
              && store.players == (if created then old(store.players)[newId := NewPlayer(name, grade, age)]
                                   else old(store.players))
              && store.currentPlayerId == (if created then Some(newId) else old(store.currentPlayerId))
              && (created && newId != "" ==> navigatedTo == Some("/") && error == old(error))
              && (!(created && newId != "") ==> navigatedTo == old(navigatedTo) && error == CreateError)
    {
      isSubmitting := true;
      var playerId := store.CreatePlayer(name, grade, age, newId, insertFails);
      if playerId.Some? && playerId.value != "" {
        navigatedTo := Some("/");
      } else {
        error := CreateError;
      }
      isSubmitting := false;
    }
  }
}
