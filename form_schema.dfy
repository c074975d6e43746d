/** What the forms' zod schemas report back. */
module FormSchema {

  /** One issue a schema reports: the field and its message. */
  datatype FieldError = FieldError(field: string, message: string)
}
