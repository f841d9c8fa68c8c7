/** The invoices bucket: uploaded objects by key, each holding a parsed document or unreadable text. */
module InvoiceBucket {

  import opened Wrappers
  import opened InvoiceTypes

  /**
   * An object body as the importer sees it after `JSON.parse`:
   * - a document whose invoiceNumber is a string;
   * - a document whose invoiceNumber has no `length` (a number, a boolean, or an object
   *   without that property), so that `length >= 5` compares `undefined` and is false;
   * - a body that does not parse, or whose invoiceNumber is null or missing, so that reading
   *   its length throws.
   */
  datatype Payload = Document(file: InvoiceFile) | InvoiceNumberWithoutLength | Unreadable

  datatype ObjectError = NoSuchKey

  class Bucket {
    var objects: map<string, Payload>

    constructor (objects: map<string, Payload>)
      ensures this.objects == objects
    {
      this.objects := objects;
    }

    /** Reads an object, failing when the key is absent. */
    method GetObject(key: string) returns (r: Result<Payload, ObjectError>)
      ensures r.Ok? <==> key in objects
      ensures r.Ok? ==> r.value == objects[key]
      ensures r.Err? ==> r.error == NoSuchKey
    {
      if key in objects {
        r := Ok(objects[key]);
      } else {
        r := Err(NoSuchKey);
      }
    }

    /** Deletes an object; deleting an absent key succeeds and changes nothing. */
    method DeleteObject(key: string)
      modifies this
      ensures objects == old(objects) - {key}
    {
      objects := objects - {key};
    }
  }
}
