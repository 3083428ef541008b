/**
 * The state of the `ProductForm` component of components/product-form.tsx:
 * the form record held by `useState`, the edit-mode flag it was given, and the
 * handlers that replace the record or read it to build a request.
 */
module ProductFormComponent {

  import opened Wrappers
  import P = Passport
  import C = ProductFormCodec

  class ProductForm {

    /** `formData`: the record every input edits. */
    var formData: C.Form
    /** The `isEditMode` prop; an absent prop is `false`. */
    const isEditMode: bool

    /** Mounting: every field starts as the empty string. */
    constructor (isEditMode: bool)
      ensures this.isEditMode == isEditMode
      ensures formData == C.EmptyForm()
      ensures forall k :: C.Get(formData, k) == ""
    {
      this.isEditMode := isEditMode;
      formData := C.EmptyForm();
    }

    /** The effect on `initialData`: when a passport is given, the form is
        replaced by its decoding; otherwise the form is left alone. */
    method LoadInitialData(initialData: Option<P.Payload>)
      modifies this
      ensures initialData.Some? ==> formData == C.Decode(initialData.value)
      ensures initialData.None? ==> formData == old(formData)
    {
      if initialData.Some? {
        formData := C.Decode(initialData.value);
      }
    }

    /** `handleInputChange`: the input called `name` now holds `value`, and no
        other field changes. */
    method HandleInputChange(name: C.FieldName, value: string)
      modifies this
      ensures formData == C.Set(old(formData), name, value)
      ensures C.Get(formData, name) == value
      ensures forall k :: k != name ==> C.Get(formData, k) == C.Get(old(formData), k)
    {
      formData := C.Set(formData, name, value);
    }

    /** The category select's `onValueChange`: `category` now holds `value`,
        and no other field changes. */
    method SelectCategory(value: string)
      modifies this
      ensures formData == old(formData).(category := value)
      ensures forall k :: k != C.Category ==> C.Get(formData, k) == C.Get(old(formData), k)
    {
      formData := formData.(category := value);
    }

    /** The request `handleSubmit` sends for the current form; submitting
        changes no field. */
    method Submit() returns (r: C.Request)
      ensures r == C.SubmitRequest(isEditMode, formData)
      ensures r.body.HasUuid() <==> isEditMode
    {
      r := C.SubmitRequest(isEditMode, formData);
    }
  }
}
