/** The live-map page's token gate: the Mapbox token typed so far and the
    flag that keeps the token card on screen. */
module Maps {
  import opened JsText

  class MapsView {
    var mapboxToken: string
    var showTokenInput: bool

    /** The page on mount: no token, card shown. */
    constructor ()
      ensures mapboxToken == "" && showTokenInput
    {
      mapboxToken := "";
      showTokenInput := true;
    }

    /** The input's `onChange`: stores the text; the card stays as it is. */
    method SetMapboxToken(value: string)
      modifies this`mapboxToken
      ensures mapboxToken == value
    {
      mapboxToken := value;
    }

    /** `handleTokenSubmit`: hides the card when the trimmed token is
        non-empty, and otherwise does nothing; the card is never shown
        again once hidden. */
    method HandleTokenSubmit()
      modifies this`showTokenInput
      ensures showTokenInput == (old(showTokenInput) && IsBlank(mapboxToken))
      ensures !old(showTokenInput) ==> !showTokenInput
    {
      if Trim(mapboxToken) != [] {
        showTokenInput := false;
      }
    }

    /** `disabled={!mapboxToken.trim()}` on the "Inicializar Mapa" button:
        disabled exactly when the token is empty or only white space. */
    function SubmitDisabled(): (r: bool)
      reads this
      ensures r <==> IsBlank(mapboxToken)
    {
      Trim(mapboxToken) == []
    }
  }
}
