/** The prototype example: a document that copies itself field by field. */
module Prototype {

  /** The three fields of a document, as a value. */
  datatype Contents = Contents(title: string, content: string, author: string)

  /** `Document`: `title` and `author` are public and assignable; `content` is private. */
  class Document {
    var title: string
    var content: string
    var author: string

    constructor (title: string, content: string, author: string)
      ensures Snapshot() == Contents(title, content, author)
    {
      this.title := title;
      this.content := content;
      this.author := author;
    }

    function Snapshot(): Contents
      reads this
    {
      Contents(title, content, author)
    }

    /** `clone()`: a new document with the same three fields; the original is left as it was. */
    method Clone() returns (copy: Document)
      ensures fresh(copy)
      ensures copy.Snapshot() == Snapshot()
    {
      copy := new Document(title, content, author);
    }
  }

  /**
   * The example's document and its clone: equal fields, yet distinct objects,
   * so renaming the clone afterwards leaves the original's title as it was.
   */
  method CloneIsIndependent() returns (original: Document, copy: Document)
    ensures original != copy
    ensures original.Snapshot()
         == Contents("Cotizacion de productos", "Cotizacion de productos de la empresa XYZ", "Juan Perez")
    ensures copy.Snapshot() == original.Snapshot().(title := "Copia")
  {
    original := new Document("Cotizacion de productos", "Cotizacion de productos de la empresa XYZ", "Juan Perez");
    copy := original.Clone();
    copy.title := "Copia";
  }

  /** Two clones of one document are distinct objects with equal fields. */
  method TwoClones(original: Document) returns (first: Document, second: Document)
    ensures first != second && first != original && second != original
    ensures first.Snapshot() == second.Snapshot() == original.Snapshot()
  {
    first := original.Clone();
    second := original.Clone();
  }
}
