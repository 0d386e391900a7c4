/**
 * The StructClassActor page: titles held by reference types (`MyClass`,
 * the actor `MyActor`) and by value types (`MyStruct`, `MyStructLet`,
 * `CustomStruct`, `MutatingStruct`). A reference type is a Dafny class, so
 * an assignment shares one object; a value type is a datatype, so an
 * assignment copies and a change is made by rebinding the variable.
 */
module ValueReference {

  class MyClass {
    var title: string

    constructor (title: string)
      ensures this.title == title
    {
      this.title := title;
    }

    method UpdateTitle(newTitle: string)
      modifies this
      ensures title == newTitle
    {
      title := newTitle;
    }
  }

  /** A struct whose `title` is a `var`: a copy may be changed on its own. */
  datatype MyStruct = MyStruct(title: string)

  /** A struct whose `title` is a `let`: it is never changed. */
  datatype MyStructLet = MyStructLet(title: string)

  /** An immutable struct whose update builds a new value. */
  datatype CustomStruct = CustomStruct(title: string) {
    /** A value carrying `newTitle` and nothing else of the receiver. */
    function UpdateTitle(newTitle: string): (r: CustomStruct)
      ensures r.title == newTitle
    {
      CustomStruct(newTitle)
    }
  }

  /** The new value does not depend on the receiver it was built from. */
  lemma CustomUpdateIgnoresReceiver(a: CustomStruct, b: CustomStruct, newTitle: string)
    ensures a.UpdateTitle(newTitle) == b.UpdateTitle(newTitle)
  {
  }

  /** A struct whose `title` changes only through its `mutating` update. */
  datatype MutatingStruct = MutatingStruct(title: string) {
    /** The value a `mutating` update leaves in the variable it is called on. */
    function UpdateTitle(newTitle: string): (r: MutatingStruct)
      ensures r.title == newTitle
    {
      this.(title := newTitle)
    }
  }

  /** The last of two title updates decides the title. */
  lemma MutatingUpdateLastWins(s: MutatingStruct, first: string, second: string)
    ensures s.UpdateTitle(first).UpdateTitle(second) == s.UpdateTitle(second)
  {
  }

  class MyActor {
    var title: string

    constructor (title: string)
      ensures this.title == title
    {
      this.title := title;
    }

    method UpdateTitle(newTitle: string)
      modifies this
      ensures title == newTitle
    {
      title := newTitle;
    }
  }

  /**
   * `objectB` is a second reference to `objectA`'s instance, so the title
   * assigned through `objectB` is what `objectA` reads.
   */
  method ClassTest1() returns (titleA: string, titleB: string)
    ensures titleA == "Second title!" && titleB == "Second title!"
  {
    var objectA := new MyClass("Starting title!");
    var objectB := objectA;
    objectB.title := "Second title!";
    titleA, titleB := objectA.title, objectB.title;
  }

  /**
   * Two separate instances: one changed by assigning its field, the other
   * by `updateTitle`; updating the second leaves the first as it was.
   */
  method ClassTest2() returns (title1: string, title2: string)
    ensures title1 == "TitleClass1" && title2 == "TitleClass2"
  {
    var class1 := new MyClass("Title1");
    class1.title := "TitleClass1";
    var class2 := new MyClass("Title2");
    class2.UpdateTitle("TitleClass2");
    title1, title2 := class1.title, class2.title;
  }

  /**
   * `structB` is a copy of `structA`, so changing its title leaves
   * `structA`'s title as it was.
   */
  method StructTest1() returns (titleA: string, titleB: string)
    ensures titleA == "Starting title!" && titleB == "Second title!"
  {
    var structA := MyStruct("Starting title!");
    var structB := structA;
    structB := structB.(title := "Second title!");
    titleA, titleB := structA.title, structB.title;
  }

  /**
   * The ways the page changes or keeps a struct's title: a `let` title
   * kept, a `var` title kept in a `let` variable, a `var` title assigned, an immutable struct replaced
   * (directly, and through `updateTitle`, which leaves the old value
   * untouched), and a mutating struct updated in its variable.
   */
  method StructTest2()
    returns (titleLet: string, titleLet1: string, title1: string, title2: string, title3: string, before3: string,
             title4: string)
    ensures titleLet == "Title1.1" && titleLet1 == "Title1.1"
    ensures title1 == "Title1.2" && title2 == "CustomTitle2.2"
    ensures title3 == "CustomTitle3.2" && before3 == "CustomTitle3.1"
    ensures title4 == "MutatingTitle2.1"
  {
    var structLet := MyStructLet("Title1.1");
    titleLet := structLet.title;

    var structLet1 := MyStruct("Title1.1");
    titleLet1 := structLet1.title;

    var struct1 := MyStruct("Title1.1");
    struct1 := struct1.(title := "Title1.2");
    title1 := struct1.title;

    var struct2 := CustomStruct("CustomTitle2.1");
    struct2 := CustomStruct("CustomTitle2.2");
    title2 := struct2.title;

    var struct3 := CustomStruct("CustomTitle3.1");
    var original3 := struct3;
    struct3 := struct3.UpdateTitle("CustomTitle3.2");
    title3, before3 := struct3.title, original3.title;

    var struct4 := MutatingStruct("MutatingTitle1.1");
    struct4 := struct4.UpdateTitle("MutatingTitle2.1");
    title4 := struct4.title;
  }

  /**
   * An actor is a reference type too: the update made through `objectB`
   * is what `objectA` reads afterwards. (The page defines this test but
   * never calls it.)
   */
  method ActorTest1() returns (titleA: string, titleB: string)
    ensures titleA == "Second title!" && titleB == "Second title!"
  {
    var objectA := new MyActor("Starting title!");
    var objectB := objectA;
    objectB.UpdateTitle("Second title!");
    titleA, titleB := objectA.title, objectB.title;
  }
}
