/** The idea record the service builds (the app's `IdeaModel`). */
module IdeaModel {

  /** An upcycling idea: a label, a short description, and ordered lists of materials and steps. */
  datatype Idea = Idea(title: string, description: string, materials: seq<string>, steps: seq<string>)
}
