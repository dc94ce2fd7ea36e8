/**
 * The state behind the generated-overview panel of the artwork detail screen
 * (HarvardArtAPP/Features/ArtworkDetail/ArtworkOverviewViewModel.swift).
 *
 * `generateOverview` awaits the generator once; it is split into `BeginGenerate`, the
 * statements before the `await`, and `FinishGenerate`, the statements after it, which
 * receives what the generator returned or threw.
 */
module ArtworkOverviewViewModel {
  import opened Wrappers
  import GeminiService

  class OverviewState {
    var overview: string
    var isLoading: bool
    var errorMessage: Option<string>
    var hasGenerated: bool

    constructor ()
      ensures overview == "" && !isLoading && errorMessage.None? && !hasGenerated
    {
      overview := "";
      isLoading := false;
      errorMessage := None;
      hasGenerated := false;
    }

    /** Start of `generateOverview`: there is no guard; loading starts and the error is cleared. */
    method BeginGenerate()
      modifies this`isLoading, this`errorMessage
      ensures isLoading && errorMessage.None?
    {
      isLoading := true;
      errorMessage := None;
    }

    /**
     * End of `generateOverview`: success stores the text and marks the overview generated;
     * failure records the message and keeps the previous overview. Loading ends either way.
     */
    method FinishGenerate(outcome: Result<string, GeminiService.OverviewFailure>)
      modifies this
      ensures !isLoading
      ensures outcome.Success? ==> overview == outcome.value && hasGenerated && errorMessage == old(errorMessage)
      ensures outcome.Failure? ==> overview == old(overview) && hasGenerated == old(hasGenerated)
                                   && errorMessage == Some(GeminiService.LocalizedDescription(outcome.error))
    {
      match outcome {
        case Success(text) =>
          overview := text;
          hasGenerated := true;
        case Failure(failure) =>
          errorMessage := Some(GeminiService.LocalizedDescription(failure));
      }
      isLoading := false;
    }

    /** `clearOverview`: back to the initial overview, without touching the loading flag. */
    method ClearOverview()
      modifies this`overview, this`hasGenerated, this`errorMessage
      ensures overview == "" && !hasGenerated && errorMessage.None?
    {
      overview := "";
      hasGenerated := false;
      errorMessage := None;
    }
  }

  /**
   * A whole generation as the screen runs it: whatever came before, a successful run leaves
   * the text shown, no error and loading finished; a failed run leaves the message of the
   * failure and nothing generated on a fresh panel.
   */
  method GenerateOnFreshPanel(outcome: Result<string, GeminiService.OverviewFailure>)
    returns (overview: string, hasGenerated: bool, errorMessage: Option<string>, isLoading: bool)
    ensures !isLoading
    ensures outcome.Success? ==> overview == outcome.value && hasGenerated && errorMessage.None?
    ensures outcome.Failure? ==> overview == "" && !hasGenerated
                                 && errorMessage == Some(GeminiService.LocalizedDescription(outcome.error))
  {
    var state := new OverviewState();
    state.BeginGenerate();
    state.FinishGenerate(outcome);
    overview, hasGenerated, errorMessage, isLoading := state.overview, state.hasGenerated, state.errorMessage, state.isLoading;
  }
}
