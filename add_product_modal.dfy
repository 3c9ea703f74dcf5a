/** The new-listing form of AddProductModal.tsx: its submit guard, the listing it hands to the
    store, and its reset. */
module AddProductModal {
  import opened Optional
  import opened Types
  import opened Strings

  const MissingFieldsMessage: string := "Please fill all fields and upload an image."

  /** `!name.trim() || !description.trim() || !price || !imagePreview` stops the submission. */
  predicate CanSubmit(name: string, description: string, price: string, imagePreview: Option<string>)
    ensures CanSubmit(name, description, price, imagePreview) <==>
      && (exists i :: 0 <= i < |name| && !IsJsWhitespace(name[i]))
      && (exists i :: 0 <= i < |description| && !IsJsWhitespace(description[i]))
      && price != "" && imagePreview.Some? && imagePreview.value != ""
  {
    !IsBlank(name) && !IsBlank(description) && price != "" && imagePreview.Some? && imagePreview.value != ""
  }

  datatype ListingOutcome = Rejected(alert: string) | Submitted(data: ProductData)

  class ListingForm {
    var name: string
    var description: string
    var price: string
    var imagePreview: Option<string>

    constructor ()
      ensures name == "" && description == "" && price == "" && imagePreview == None
    {
      name, description, price, imagePreview := "", "", "", None;
    }

    /** The reset effect once the form is closed. */
    method Close()
      modifies this
      ensures name == "" && description == "" && price == "" && imagePreview == None
    {
      name, description, price, imagePreview := "", "", "", None;
    }

    method SetName(value: string)
      modifies this`name
      ensures name == value
    {
      name := value;
    }

    method SetDescription(value: string)
      modifies this`description
      ensures description == value
    {
      description := value;
    }

    method SetPrice(value: string)
      modifies this`price
      ensures price == value
    {
      price := value;
    }

    /** The state write made once a chosen image has been read. */
    method ImageLoaded(dataUrl: string)
      modifies this`imagePreview
      ensures imagePreview == Some(dataUrl)
    {
      imagePreview := Some(dataUrl);
    }

    /** `handleSubmit`. `parsedPrice` stands for `parseFloat(price)`. On success the name and
        description go out exactly as typed and the only image is the preview. */
    method Submit(parsedPrice: int) returns (outcome: ListingOutcome)
      ensures outcome.Rejected? <==> !CanSubmit(name, description, price, imagePreview)
      ensures outcome.Rejected? ==> outcome.alert == MissingFieldsMessage
      ensures outcome.Submitted? ==>
        && outcome.data.name == name && outcome.data.description == description
        && outcome.data.price == parsedPrice
        && imagePreview.Some? && outcome.data.imageUrls == [imagePreview.value]
    {
      if IsBlank(name) || IsBlank(description) || price == "" || imagePreview.None? || imagePreview.value == "" {
        return Rejected(MissingFieldsMessage);
      }
      return Submitted(ProductData(name, description, parsedPrice, [imagePreview.value]));
    }
  }
}
