/** The fault codes the model mentions (internal/fault). */
module Fault {
  const E2001: nat := 2001
  const E2002: nat := 2002
  const E2004: nat := 2004
  const E3003: nat := 3003
  const E4003: nat := 4003
  const E4004: nat := 4004
  const E4005: nat := 4005
  const E4006: nat := 4006
  const E4007: nat := 4007
  const E5001: nat := 5001
  const E5002: nat := 5002
  const E5003: nat := 5003
  const E5004: nat := 5004
  const E5006: nat := 5006
  const E5007: nat := 5007
  const E5009: nat := 5009
  const E5010: nat := 5010
  const E5011: nat := 5011
  const E6001: nat := 6001
  const E6002: nat := 6002
  const E6003: nat := 6003
  const E6004: nat := 6004
  const E8001: nat := 8001
  const E8002: nat := 8002
  const E8003: nat := 8003
  const E9004: nat := 9004
}
