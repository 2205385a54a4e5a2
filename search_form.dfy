/** The search box (src/components/search-form.tsx): the form's schema check
    (at least three characters), then `onSubmit`, which parses the query,
    rejects a malformed one with a toast, and otherwise navigates to the
    search URL carrying the query as typed. */
module SearchForm {
  import opened Common
  import opened Text
  import opened Query

  const MinQueryLength := 3
  const TooShortMessage := "Please enter at least 3 characters."

  const InvalidFormatToast := Toast(true, "Invalid Format", "Please enter the song as 'Artist - Title'.")

  /** How a submission of `query` ends. */
  datatype Submission =
    | SchemaRejected     // `formSchema` fails; `onSubmit` never runs
    | FormatRejected     // `onSubmit` finds no artist or no title
    | Navigate(query: string)

  /** The field's validation message for `text` under `formSchema`. */
  function SchemaMessage(text: string): (m: Option<string>)
    ensures m.Some? <==> |text| < MinQueryLength
    ensures m.Some? ==> m.value == TooShortMessage
  {
    if |text| < MinQueryLength then Some(TooShortMessage) else None
  }

  /** The outcome of submitting `query`. */
  function Decide(query: string): Submission {
    if |query| < MinQueryLength then SchemaRejected
    else if !Accepted(Parse(query)) then FormatRejected
    else Navigate(query)
  }

  /** The field shows the schema's message exactly for the texts a
      submission would reject before `onSubmit` runs. */
  lemma SchemaMessageAgrees(text: string)
    ensures SchemaMessage(text).Some? <==> Decide(text) == SchemaRejected
  {
  }

  /** A query without a hyphen is never searched: it is too short or has an
      empty title. */
  lemma NoHyphenNeverNavigates(query: string)
    requires '-' !in query
    ensures !Decide(query).Navigate?
    ensures |query| >= MinQueryLength ==> Decide(query) == FormatRejected
  {
    ParseArtistBeforeFirstHyphen(query);
  }

  /** A query written "<artist> - <title>" with non-empty, trimmed,
      hyphen-free parts is always searched, and the navigation carries it as
      typed. */
  lemma FormattedQueryNavigates(artist: string, title: string)
    requires artist != [] && title != []
    requires IsTrimmed(artist) && IsTrimmed(title)
    requires '-' !in artist && '-' !in title
    ensures Decide(artist + " - " + title) == Navigate(artist + " - " + title)
  {
    ParseFormatted(artist, title);
  }

  /** Whatever the form navigates with, the search handler parses to a
      non-empty artist and title, so its server call passes the input
      schema. */
  lemma NavigationIsWellFormed(query: string)
    requires Decide(query).Navigate?
    ensures Decide(query).query == query
    ensures Parse(query).artist != "" && Parse(query).title != ""
    ensures IsTrimmed(Parse(query).artist)
  {
    ParseDropsHyphens(query);
  }

  /** The `SearchForm` component: its loading flag, the form's one field and
      its validation message, and the effects it has on the page (toasts
      shown, navigations started, the pending 500 ms timer). */
  class SearchForm {
    var isLoading: bool
    /** Every `setIsLoading` call, in order. */
    var loadingUpdates: seq<bool>
    var query: string
    var fieldMessage: Option<string>
    var toasts: seq<Toast>
    /** The `q` value of each `router.push("/?q=…")`, before URL encoding. */
    var navigations: seq<string>
    var pendingTimers: nat
    /** The form's `isSubmitted` state: cleared by `form.reset()` and set at
        the end of every submission, after `onSubmit` has returned (so a
        reset inside `onSubmit` does not outlast the submission). While it is
        set, every change re-runs the schema (react-hook-form's default
        `reValidateMode: "onChange"`). */
    var submitted: bool

    /** The loading flag is the last value it was set to (initially false).
        Before any submission the field shows no message; once submitted it
        shows the schema's message for the current text, except right after a
        search, when the reset field is empty and shows nothing until the
        next edit. */
    ghost predicate Valid()
      reads this
    {
      && isLoading == (if loadingUpdates == [] then false else loadingUpdates[|loadingUpdates| - 1])
      && (!submitted ==> fieldMessage == None)
      && (submitted ==> fieldMessage == SchemaMessage(query) || (query == "" && fieldMessage == None))
    }

    constructor()
      ensures Valid()
      ensures !isLoading && loadingUpdates == [] && query == "" && fieldMessage == None
      ensures toasts == [] && navigations == [] && pendingTimers == 0 && !submitted
    {
      isLoading := false;
      loadingUpdates := [];
      query := "";
      fieldMessage := None;
      toasts := [];
      navigations := [];
      pendingTimers := 0;
      submitted := false;
    }

    /** The user edits the field. Before the first submission the message is
        left alone; after it, the schema is checked again on the new text. */
    method Type(text: string)
      modifies this
      requires Valid()
      ensures Valid()
      ensures query == text
      ensures fieldMessage == (if submitted then SchemaMessage(text) else old(fieldMessage))
      ensures isLoading == old(isLoading) && loadingUpdates == old(loadingUpdates) && submitted == old(submitted)
      ensures toasts == old(toasts) && navigations == old(navigations) && pendingTimers == old(pendingTimers)
    {
      query := text;
      if submitted {
        fieldMessage := SchemaMessage(text);
      }
    }

    method SetIsLoading(value: bool)
      modifies this
      requires Valid()
      ensures Valid()
      ensures isLoading == value && loadingUpdates == old(loadingUpdates) + [value]
      ensures query == old(query) && fieldMessage == old(fieldMessage) && toasts == old(toasts)
      ensures navigations == old(navigations) && pendingTimers == old(pendingTimers) && submitted == old(submitted)
    {
      isLoading := value;
      loadingUpdates := loadingUpdates + [value];
    }

    /** `form.handleSubmit(onSubmit)`: a query shorter than three characters
        shows the schema's message and does nothing else; any other query
        clears the message and runs `onSubmit` with it. Either way the form
        then counts as submitted, with no message left by `onSubmit`. The
        submit button is disabled while loading, so a submission starts with
        the flag off. */
    method HandleSubmit()
      modifies this
      requires Valid() && !isLoading
      ensures Valid()
      ensures Decide(old(query)) == SchemaRejected ==>
        && fieldMessage == Some(TooShortMessage) && submitted
        && query == old(query) && !isLoading && loadingUpdates == old(loadingUpdates)
        && toasts == old(toasts) && navigations == old(navigations) && pendingTimers == old(pendingTimers)
      ensures Decide(old(query)) == FormatRejected ==>
        && fieldMessage == None && query == old(query) && submitted
        && !isLoading && loadingUpdates == old(loadingUpdates) + [true, false]
        && toasts == old(toasts) + [InvalidFormatToast]
        && navigations == old(navigations) && pendingTimers == old(pendingTimers)
      ensures Decide(old(query)).Navigate? ==>
        && fieldMessage == None && query == "" && submitted
        && isLoading && loadingUpdates == old(loadingUpdates) + [true]
        && toasts == old(toasts)
        && navigations == old(navigations) + [old(query)]
        && pendingTimers == old(pendingTimers) + 1
    {
      if |query| < MinQueryLength {
        fieldMessage := Some(TooShortMessage);
        submitted := true;
        return;
      }
      fieldMessage := None;
      OnSubmit(query);
      submitted := true;
    }

    /** `onSubmit`: set the loading flag, parse, and either reject with a
        toast (clearing the flag) or navigate with the query as typed, start
        the timer that will clear the flag, and reset the field. */
    method OnSubmit(values: string)
      modifies this
      requires Valid()
      ensures Valid()
      ensures !Accepted(Parse(values)) ==>
        && !isLoading && loadingUpdates == old(loadingUpdates) + [true, false]
        && toasts == old(toasts) + [InvalidFormatToast]
        && query == old(query) && fieldMessage == old(fieldMessage) && submitted == old(submitted)
        && navigations == old(navigations) && pendingTimers == old(pendingTimers)
      ensures Accepted(Parse(values)) ==>
        && isLoading && loadingUpdates == old(loadingUpdates) + [true]
        && toasts == old(toasts)
        && navigations == old(navigations) + [values]
        && pendingTimers == old(pendingTimers) + 1
        && query == "" && fieldMessage == None && !submitted
    {
      var accepted := Accepted(Parse(values));  // `!(!artist || !title)`
      SetIsLoading(true);
      if !accepted {
        toasts := toasts + [InvalidFormatToast];
        SetIsLoading(false);
        return;
      }
      navigations := navigations + [values];
      pendingTimers := pendingTimers + 1;
      Reset();
    }

    /** `form.reset()`: the field back to its default value, with no message,
        and the form no longer counts as submitted. */
    method Reset()
      modifies this
      requires Valid()
      ensures Valid()
      ensures query == "" && fieldMessage == None && !submitted
      ensures isLoading == old(isLoading) && loadingUpdates == old(loadingUpdates)
      ensures toasts == old(toasts) && navigations == old(navigations) && pendingTimers == old(pendingTimers)
    {
      query := "";
      fieldMessage := None;
      submitted := false;
    }

    /** The 500 ms timer started by a navigation fires. */
    method LoadingTimerFires()
      modifies this
      requires Valid() && pendingTimers > 0
      ensures Valid()
      ensures !isLoading && loadingUpdates == old(loadingUpdates) + [false]
      ensures pendingTimers == old(pendingTimers) - 1
      ensures query == old(query) && fieldMessage == old(fieldMessage) && submitted == old(submitted)
      ensures toasts == old(toasts) && navigations == old(navigations)
    {
      SetIsLoading(false);
      pendingTimers := pendingTimers - 1;
    }
  }
}
