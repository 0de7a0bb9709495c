/** The outfit suggestion record (app/models/outfit.py): four required strings. */
module Outfit {
  /** `outerwear` holds the text "None" when no outer layer is suggested. */
  datatype OutfitSuggestion = OutfitSuggestion(top: string, bottom: string, outerwear: string, accessories: string)
}
