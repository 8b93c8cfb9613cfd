// The event codes the ESPUI web-UI library passes to control callbacks.
// The firmware compares callback `type` arguments against these values.
module EspUi {
  const B_DOWN: int := -1
  const B_UP: int := 1
  const P_LEFT_DOWN: int := -2
  const P_LEFT_UP: int := 2
  const P_RIGHT_DOWN: int := -3
  const P_RIGHT_UP: int := 3
  const P_FOR_DOWN: int := -4
  const P_FOR_UP: int := 4
  const P_BACK_DOWN: int := -5
  const P_BACK_UP: int := 5
  const P_CENTER_DOWN: int := -6
  const P_CENTER_UP: int := 6
  const S_ACTIVE: int := -7
  const S_INACTIVE: int := 7
}
