// The code-tracking state a builder carries for strict validation: the codes it has used,
// whether strict code-list validation is on, and the registry to check against.
module ValidationTracking {
  import opened Wrappers
  import opened Php
  import Codelists

  class Tracking {
    var usedCurrencyCodes: seq<string>
    var usedSchemeIds: seq<string>
    var usedEndpointSchemeIds: seq<string>
    var usedPartySchemeIds: seq<string>
    var usedRegistrationSchemeIds: seq<string>
    var usedPaymentMeansCodes: seq<string>
    var usedUnitCodes: seq<string>
    var usedTaxCategoryIds: seq<string>
    var strictCodelistValidation: bool
    var codelistRegistry: Option<Codelists.CodelistRegistry>

    /** The eight tracked code lists, in declaration order. */
    function UsedCodes(): seq<seq<string>>
      reads this
    {
      [usedCurrencyCodes, usedSchemeIds, usedEndpointSchemeIds, usedPartySchemeIds,
       usedRegistrationSchemeIds, usedPaymentMeansCodes, usedUnitCodes, usedTaxCategoryIds]
    }

    /** The property defaults: nothing tracked, strict mode off, no registry. */
    constructor()
      ensures forall i :: 0 <= i < |UsedCodes()| ==> UsedCodes()[i] == []
      ensures !strictCodelistValidation && codelistRegistry.None?
    {
      usedCurrencyCodes, usedSchemeIds, usedEndpointSchemeIds, usedPartySchemeIds := [], [], [], [];
      usedRegistrationSchemeIds, usedPaymentMeansCodes, usedUnitCodes, usedTaxCategoryIds := [], [], [], [];
      strictCodelistValidation := false;
      codelistRegistry := None;
    }

    /** enableStrictCodelistValidation. A supplied registry wins over a path; a path that is set
      * loads the registry from that file, whose outcome (`fromFile`) is given here; with
      * neither, the registry already held is kept. Strict mode is switched on in every case
      * that does not throw, and the same instance is returned. */
    method EnableStrictCodelistValidation(jsonPath: Option<string>, registry: Option<Codelists.CodelistRegistry>,
                                          fromFile: Result<Codelists.CodelistRegistry, string>)
      returns (r: Result<Tracking, string>)
      modifies this
      ensures UsedCodes() == old(UsedCodes())
      ensures registry.Some? ==> r == Success(this) && codelistRegistry == registry && strictCodelistValidation
      ensures registry.None? && !EmptyOpt(jsonPath) && fromFile.Success? ==>
        r == Success(this) && codelistRegistry == Some(fromFile.value) && strictCodelistValidation
      ensures registry.None? && !EmptyOpt(jsonPath) && fromFile.Failure? ==>
        r == Failure(fromFile.error)
        && codelistRegistry == old(codelistRegistry) && strictCodelistValidation == old(strictCodelistValidation)
      ensures registry.None? && EmptyOpt(jsonPath) ==>
        r == Success(this) && codelistRegistry == old(codelistRegistry) && strictCodelistValidation
    {
      if registry.Some? {
        codelistRegistry := registry;
      } else if !EmptyOpt(jsonPath) {
        if fromFile.Failure? {
          return Failure(fromFile.error);
        }
        codelistRegistry := Some(fromFile.value);
      }
      strictCodelistValidation := true;
      r := Success(this);
    }
  }
}
