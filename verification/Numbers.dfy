// The larger and the smaller of two numbers, shared by every module of the project.
module Numbers {

  function Max(a: int, b: int): int {
    if a > b then a else b
  }

  function Min(a: int, b: int): int {
    if a < b then a else b
  }
}
